/** Properties of the upload pipeline (`uploadMeeting`).

    The reference point is an independent description of the pipeline: the
    list of its eight checkpoints in order, and how many of them pass before
    the first one that fails.  The handler's nested control flow is proved to
    store, answer and clean up exactly as that count says. */
module UploadProperties {
  import opened Outcomes
  import opened MeetingModel
  import opened UploadMiddleware
  import opened GeminiService
  import opened MeetingController

  /** Whether checkpoint `i` of the pipeline passes: the record is
      created, the media uploaded, the record saved again, the transcript
      generated, saved, summary and tasks both generated, saved, and the
      local file deleted. */
  function Passes(i: nat, f: StoredFile, w: UploadWorld): bool {
    if i == 0 then f.originalName != "" && w.createWrite.Done?
    else if i == 1 then w.mediaUpload.Answered?
    else if i == 2 then w.uriWrite.Done?
    else if i == 3 then w.transcription.Answered?
    else if i == 4 then w.transcriptWrite.Done?
    else if i == 5 then w.summary.Answered? && w.taskText.Answered?
    else if i == 6 then w.enrichWrite.Done?
    else f.path == "" || w.unlink.Done?
  }

  /** The eight checkpoints, in order. */
  function Checkpoints(f: StoredFile, w: UploadWorld): (bs: seq<bool>)
    ensures |bs| == 8
  {
    [Passes(0, f, w), Passes(1, f, w), Passes(2, f, w), Passes(3, f, w),
     Passes(4, f, w), Passes(5, f, w), Passes(6, f, w), Passes(7, f, w)]
  }

  /** The number of leading checkpoints that pass. */
  function Reached(bs: seq<bool>): (k: nat)
    ensures k <= |bs|
    decreases |bs|
  {
    if |bs| == 0 || !bs[0] then 0 else 1 + Reached(bs[1..])
  }

  lemma {:induction false} ReachedIs(bs: seq<bool>, k: nat)
    requires k <= |bs|
    requires forall i :: 0 <= i < k ==> bs[i]
    requires k == |bs| || !bs[k]
    ensures Reached(bs) == k
    decreases k
  {
    if k > 0 {
      ReachedIs(bs[1..], k - 1);
    }
  }

  function Progress(f: StoredFile, w: UploadWorld): nat {
    Reached(Checkpoints(f, w))
  }

  /** What the store should hold after `k` checkpoints: nothing before the
      record is created; the fresh record until the transcript is saved; the
      record with its transcript until summary and tasks are saved; the
      record with all three afterwards. */
  function ExpectedStored(k: nat, f: StoredFile, userId: UserId, id: MeetingId, now: Time,
                          w: UploadWorld, parse: string -> Option<Json>): Option<Meeting>
  {
    var created := NewMeeting(id, userId, f.originalName, now);
    var transcribed := created.(transcript := Some(w.transcription.GetOr("")));
    if k == 0 then None
    else if k < 5 then Some(created)
    else if k < 7 then Some(transcribed)
    else Some(transcribed.(summary := Some(w.summary.GetOr("")),
                           tasks := ParseOrEmpty(w.taskText.GetOr(""), parse)))
  }

  /** The remote URI the handler holds for cleanup: the upload's URI once
      the upload succeeded, otherwise none (`""`). */
  function ObtainedUri(f: StoredFile, w: UploadWorld): string {
    if f.originalName != "" && w.createWrite.Done? && w.mediaUpload.Answered? then w.mediaUpload.value.uri else ""
  }

  /** The error message of an outcome (`""` for one that did not fail). */
  function FailureOf(o: Outcome): string {
    if o.Failed? then o.message else ""
  }

  function RejectionOf<T>(r: Reply<T>): string {
    if r.Rejected? then r.message else ""
  }

  /** The message of the error thrown when checkpoint `k` fails. */
  function ErrorAt(k: nat, f: StoredFile, w: UploadWorld): string {
    if k == 0 then (if f.originalName == "" then ValidationMessage else FailureOf(w.createWrite))
    else if k == 1 then Prefix(MediaUpload) + RejectionOf(w.mediaUpload)
    else if k == 2 then FailureOf(w.uriWrite)
    else if k == 3 then Prefix(Transcription) + RejectionOf(w.transcription)
    else if k == 4 then FailureOf(w.transcriptWrite)
    else if k == 5 then
      (if w.summary.Rejected? && (w.taskText.Answered? || w.summaryRejectsFirst)
       then Prefix(Summarization) + RejectionOf(w.summary)
       else Prefix(TaskExtraction) + RejectionOf(w.taskText))
    else if k == 6 then FailureOf(w.enrichWrite)
    else FailureOf(w.unlink)
  }

  /** Every call the pipeline can make, in order, with the arguments a run
      that gets through would give them. */
  function PipelineCalls(f: StoredFile, userId: UserId, id: MeetingId, now: Time,
                         w: UploadWorld, parse: string -> Option<Json>): (calls: seq<Call>)
    ensures |calls| == 8
  {
    var created := NewMeeting(id, userId, f.originalName, now);
    var remote := w.mediaUpload.GetOr(RemoteFile("", ""));
    var text := w.transcription.GetOr("");
    var transcribed := created.(transcript := Some(text));
    var enriched := transcribed.(summary := Some(w.summary.GetOr("")),
                                 tasks := ParseOrEmpty(w.taskText.GetOr(""), parse));
    [ SaveMeeting(created), UploadMedia(f.path, f.mimeType), SaveMeeting(created),
      Transcribe(FileData(remote.mimeType, remote.uri)), SaveMeeting(transcribed),
      Summarize(text), ExtractTaskList(text), SaveMeeting(enriched) ]
  }

  /** Each prefix of the pipeline's calls extends the one before by a
      single call, the way the handler appends them. */
  lemma PipelinePrefixes(f: StoredFile, userId: UserId, id: MeetingId, now: Time,
                         w: UploadWorld, parse: string -> Option<Json>)
    ensures var c := PipelineCalls(f, userId, id, now, w, parse);
      && c[..1] == [c[0]] && c[..2] == c[..1] + [c[1]] && c[..3] == c[..2] + [c[2]]
      && c[..4] == c[..3] + [c[3]] && c[..5] == c[..4] + [c[4]] && c[..6] == c[..5] + [c[5]]
      && c[..7] == c[..6] + [c[6]] && c[..8] == c[..7] + [c[7]]
  {
  }

  /** How many of `PipelineCalls` a run stopping after `k` checkpoints made:
      all up to and including the call that failed. */
  function CallsMade(k: nat): nat {
    if k <= 4 then k + 1 else if k == 5 then 7 else 8
  }

  /** The whole outcome of an upload request with a file whose run
      passes exactly `k` checkpoints. */
  function ReferenceReport(k: nat, f: StoredFile, userId: UserId, id: MeetingId, now: Time,
                           w: UploadWorld, parse: string -> Option<Json>): UploadReport
  {
    var stored := ExpectedStored(k, f, userId, id, now, w, parse);
    UploadReport(
      stored,
      PipelineCalls(f, userId, id, now, w, parse)[..CallsMade(k)],
      ExpectedCleanups(k, f, w),
      if k == 8 then
        var m := stored.GetOr(NewMeeting(id, userId, f.originalName, now));
        Response(200, Processed(id, m.transcript, m.summary, m.tasks))
      else Response(500, Failure("Failed to process meeting", ErrorAt(k, f, w))))
  }

  /** The local clean-up calls of a run, by the checkpoint count: the
      success-path unlink once the fourth save went through; on failure,
      `fs.stat` and, if it still finds the file, an unlink.  Nothing without
      a local path. */
  function LocalCleanups(k: nat, f: StoredFile, w: UploadWorld): seq<Cleanup> {
    if f.path == "" then []
    else
      (if k >= 7 then [Unlink(f.path)] else [])
      + (if k < 8 then [Stat(f.path)] + (if w.statFindsFile then [Unlink(f.path)] else []) else [])
  }

  /** The remote clean-up of a run: exactly one deletion of the remote copy
      when a URI was obtained, whether the run succeeded or not. */
  function RemoteCleanups(f: StoredFile, w: UploadWorld): seq<Cleanup> {
    var uri := ObtainedUri(f, w);
    if uri != "" then [DeleteRemote(FileIdOf(uri))] else []
  }

  /** All clean-up calls of a run: the local ones, then the remote one. */
  function ExpectedCleanups(k: nat, f: StoredFile, w: UploadWorld): seq<Cleanup> {
    LocalCleanups(k, f, w) + RemoteCleanups(f, w)
  }

  lemma {:induction false} ProgressFacts(bs: seq<bool>, k: nat)
    requires Reached(bs) == k
    ensures forall i :: 0 <= i < k ==> bs[i]
    ensures k < |bs| ==> !bs[k]
    decreases k
  {
    if k > 0 {
      ProgressFacts(bs[1..], k - 1);
    }
  }

  /** The first `n` checkpoints all pass. */
  predicate PassedFirst(n: nat, f: StoredFile, w: UploadWorld) {
    forall i :: 0 <= i < n ==> Passes(i, f, w)
  }

  /** The checkpoint count reaches `n` exactly when the first `n`
      checkpoints pass. */
  lemma ProgressAtLeast(n: nat, f: StoredFile, w: UploadWorld)
    requires n <= 8
    ensures Progress(f, w) >= n <==> PassedFirst(n, f, w)
  {
    var bs := Checkpoints(f, w);
    var k := Progress(f, w);
    ProgressFacts(bs, k);
    if k >= n {
      forall i | 0 <= i < n ensures Passes(i, f, w) {
        assert bs[i];
      }
    } else {
      assert !bs[k];
    }
  }

  /** The handler and the reference for `k` passed checkpoints agree on the
      stored record, the calls, the clean-up calls and the response. */
  predicate AgreesAt(k: nat, f: StoredFile, userId: UserId, id: MeetingId, now: Time,
                     w: UploadWorld, parse: string -> Option<Json>)
  {
    && UploadMeeting(Some(f), userId, id, now, w, parse).stored == ReferenceReport(k, f, userId, id, now, w, parse).stored
    && UploadMeeting(Some(f), userId, id, now, w, parse).calls == ReferenceReport(k, f, userId, id, now, w, parse).calls
    && UploadMeeting(Some(f), userId, id, now, w, parse).cleanups == ReferenceReport(k, f, userId, id, now, w, parse).cleanups
    && UploadMeeting(Some(f), userId, id, now, w, parse).response == ReferenceReport(k, f, userId, id, now, w, parse).response
  }

  // One lemma per checkpoint count k: when exactly the first k checkpoints
  // pass, the handler agrees with the reference for k.  They are kept apart
  // so that each proof unfolds only the one path of the handler it is about.

  lemma ReportAt0(f: StoredFile, userId: UserId, id: MeetingId, now: Time,
                   w: UploadWorld, parse: string -> Option<Json>)
    requires !Passes(0, f, w)
    ensures AgreesAt(0, f, userId, id, now, w, parse)
  {
    PipelinePrefixes(f, userId, id, now, w, parse);
  }

  lemma ReportAt1(f: StoredFile, userId: UserId, id: MeetingId, now: Time,
                   w: UploadWorld, parse: string -> Option<Json>)
    requires Passes(0, f, w) && !Passes(1, f, w)
    ensures AgreesAt(1, f, userId, id, now, w, parse)
  {
    PipelinePrefixes(f, userId, id, now, w, parse);
  }

  lemma ReportAt2(f: StoredFile, userId: UserId, id: MeetingId, now: Time,
                   w: UploadWorld, parse: string -> Option<Json>)
    requires Passes(0, f, w) && Passes(1, f, w) && !Passes(2, f, w)
    ensures AgreesAt(2, f, userId, id, now, w, parse)
  {
    PipelinePrefixes(f, userId, id, now, w, parse);
  }

  lemma ReportAt3(f: StoredFile, userId: UserId, id: MeetingId, now: Time,
                   w: UploadWorld, parse: string -> Option<Json>)
    requires Passes(0, f, w) && Passes(1, f, w) && Passes(2, f, w) && !Passes(3, f, w)
    ensures AgreesAt(3, f, userId, id, now, w, parse)
  {
    PipelinePrefixes(f, userId, id, now, w, parse);
  }

  lemma ReportAt4(f: StoredFile, userId: UserId, id: MeetingId, now: Time,
                   w: UploadWorld, parse: string -> Option<Json>)
    requires Passes(0, f, w) && Passes(1, f, w) && Passes(2, f, w) && Passes(3, f, w)
             && !Passes(4, f, w)
    ensures AgreesAt(4, f, userId, id, now, w, parse)
  {
    PipelinePrefixes(f, userId, id, now, w, parse);
  }

  lemma ReportAt5(f: StoredFile, userId: UserId, id: MeetingId, now: Time,
                   w: UploadWorld, parse: string -> Option<Json>)
    requires Passes(0, f, w) && Passes(1, f, w) && Passes(2, f, w) && Passes(3, f, w)
             && Passes(4, f, w) && !Passes(5, f, w)
    ensures AgreesAt(5, f, userId, id, now, w, parse)
  {
    PipelinePrefixes(f, userId, id, now, w, parse);
  }

  lemma ReportAt6(f: StoredFile, userId: UserId, id: MeetingId, now: Time,
                   w: UploadWorld, parse: string -> Option<Json>)
    requires Passes(0, f, w) && Passes(1, f, w) && Passes(2, f, w) && Passes(3, f, w)
             && Passes(4, f, w) && Passes(5, f, w) && !Passes(6, f, w)
    ensures AgreesAt(6, f, userId, id, now, w, parse)
  {
    PipelinePrefixes(f, userId, id, now, w, parse);
  }

  lemma ReportAt7(f: StoredFile, userId: UserId, id: MeetingId, now: Time,
                   w: UploadWorld, parse: string -> Option<Json>)
    requires Passes(0, f, w) && Passes(1, f, w) && Passes(2, f, w) && Passes(3, f, w)
             && Passes(4, f, w) && Passes(5, f, w) && Passes(6, f, w) && !Passes(7, f, w)
    ensures AgreesAt(7, f, userId, id, now, w, parse)
  {
    PipelinePrefixes(f, userId, id, now, w, parse);
  }

  lemma ReportAt8(f: StoredFile, userId: UserId, id: MeetingId, now: Time,
                   w: UploadWorld, parse: string -> Option<Json>)
    requires Passes(0, f, w) && Passes(1, f, w) && Passes(2, f, w) && Passes(3, f, w)
             && Passes(4, f, w) && Passes(5, f, w) && Passes(6, f, w) && Passes(7, f, w)
    ensures AgreesAt(8, f, userId, id, now, w, parse)
  {
    PipelinePrefixes(f, userId, id, now, w, parse);
  }

  lemma ReferenceEarly(k: nat, f: StoredFile, userId: UserId, id: MeetingId, now: Time,
                        w: UploadWorld, parse: string -> Option<Json>)
    requires Progress(f, w) == k && 0 <= k <= 2
    ensures AgreesAt(k, f, userId, id, now, w, parse)
  {
    var bs := Checkpoints(f, w);
    ProgressFacts(bs, k);
    if k == 0 { assert !bs[0]; ReportAt0(f, userId, id, now, w, parse); }
    else if k == 1 { assert bs[0] && !bs[1]; ReportAt1(f, userId, id, now, w, parse); }
    else { assert bs[0] && bs[1] && !bs[2]; ReportAt2(f, userId, id, now, w, parse); }
  }

  lemma ReferenceMiddle(k: nat, f: StoredFile, userId: UserId, id: MeetingId, now: Time,
                        w: UploadWorld, parse: string -> Option<Json>)
    requires Progress(f, w) == k && 3 <= k <= 5
    ensures AgreesAt(k, f, userId, id, now, w, parse)
  {
    var bs := Checkpoints(f, w);
    ProgressFacts(bs, k);
    if k == 3 { assert bs[0] && bs[1] && bs[2] && !bs[3]; ReportAt3(f, userId, id, now, w, parse); }
    else if k == 4 { assert bs[0] && bs[1] && bs[2] && bs[3] && !bs[4]; ReportAt4(f, userId, id, now, w, parse); }
    else { assert bs[0] && bs[1] && bs[2] && bs[3] && bs[4] && !bs[5]; ReportAt5(f, userId, id, now, w, parse); }
  }

  lemma ReferenceLate(k: nat, f: StoredFile, userId: UserId, id: MeetingId, now: Time,
                        w: UploadWorld, parse: string -> Option<Json>)
    requires Progress(f, w) == k && 6 <= k <= 8
    ensures AgreesAt(k, f, userId, id, now, w, parse)
  {
    var bs := Checkpoints(f, w);
    ProgressFacts(bs, k);
    if k == 6 { assert bs[0] && bs[1] && bs[2] && bs[3] && bs[4] && bs[5] && !bs[6]; ReportAt6(f, userId, id, now, w, parse); }
    else if k == 7 { assert bs[0] && bs[1] && bs[2] && bs[3] && bs[4] && bs[5] && bs[6] && !bs[7]; ReportAt7(f, userId, id, now, w, parse); }
    else { assert bs[0] && bs[1] && bs[2] && bs[3] && bs[4] && bs[5] && bs[6] && bs[7]; ReportAt8(f, userId, id, now, w, parse); }
  }

  /** The handler's nested control flow and the flat reference agree on
      every input with a file: same stored record, same calls, same
      clean-up calls, same response. */
  lemma UploadMatchesReference(f: StoredFile, userId: UserId, id: MeetingId, now: Time,
                               w: UploadWorld, parse: string -> Option<Json>)
    ensures UploadMeeting(Some(f), userId, id, now, w, parse)
         == ReferenceReport(Progress(f, w), f, userId, id, now, w, parse)
  {
    var k := Progress(f, w);
    assert k <= 8;
    if k <= 2 { ReferenceEarly(k, f, userId, id, now, w, parse); }
    else if k <= 5 { ReferenceMiddle(k, f, userId, id, now, w, parse); }
    else { ReferenceLate(k, f, userId, id, now, w, parse); }
  }
}
