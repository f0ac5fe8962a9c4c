/** What `uploadMeeting` promises, read off the checkpoint reference: when
    it answers 200, what it leaves in the store, which calls it makes with
    which arguments, how a failure is reported, and how it cleans up. */
module UploadTheorems {
  import opened Outcomes
  import opened MeetingModel
  import opened UploadMiddleware
  import opened GeminiService
  import opened MeetingController
  import opened UploadProperties

  /** The request succeeds exactly when every checkpoint passes. */
  lemma SucceedsIffAllPass(f: StoredFile, userId: UserId, id: MeetingId, now: Time,
                           w: UploadWorld, parse: string -> Option<Json>)
    ensures UploadMeeting(Some(f), userId, id, now, w, parse).response.status == 200
        <==> PassedFirst(8, f, w)
  {
    UploadMatchesReference(f, userId, id, now, w, parse);
    ProgressAtLeast(8, f, w);
  }

  /** A successful response reports the transcript and summary the provider
      produced and the tasks parsed from its answer. */
  lemma SuccessReportsResults(f: StoredFile, userId: UserId, id: MeetingId, now: Time,
                              w: UploadWorld, parse: string -> Option<Json>)
    requires UploadMeeting(Some(f), userId, id, now, w, parse).response.status == 200
    ensures w.transcription.Answered? && w.summary.Answered? && w.taskText.Answered?
    ensures UploadMeeting(Some(f), userId, id, now, w, parse).response.body
         == Processed(id, Some(w.transcription.value), Some(w.summary.value),
                      ParseOrEmpty(w.taskText.value, parse))
  {
    UploadMatchesReference(f, userId, id, now, w, parse);
    ProgressAtLeast(8, f, w);
    assert Passes(3, f, w) && Passes(5, f, w);
  }

  /** Task text that is not JSON does not fail the upload: the meeting is
      stored and reported with no tasks. */
  lemma UnparsableTasksStillSucceed(f: StoredFile, userId: UserId, id: MeetingId, now: Time,
                                    w: UploadWorld, parse: string -> Option<Json>)
    requires PassedFirst(8, f, w)
    requires w.taskText.Answered? && parse(w.taskText.value).None?
    ensures UploadMeeting(Some(f), userId, id, now, w, parse).response.status == 200
    ensures UploadMeeting(Some(f), userId, id, now, w, parse).response.body.tasks == NoTasks
    ensures UploadMeeting(Some(f), userId, id, now, w, parse).stored.value.tasks == NoTasks
  {
    UploadMatchesReference(f, userId, id, now, w, parse);
    ProgressAtLeast(8, f, w);
  }

  /** Nothing is stored unless the first save goes through, and what is
      stored always carries the request's identity: the caller, the id, the
      uploaded file's original name and the creation time. */
  lemma StoredIdentity(f: StoredFile, userId: UserId, id: MeetingId, now: Time,
                       w: UploadWorld, parse: string -> Option<Json>)
    ensures var r := UploadMeeting(Some(f), userId, id, now, w, parse);
      && (r.stored.Some? <==> f.originalName != "" && w.createWrite.Done?)
      && (r.stored.Some? ==>
            && r.stored.value.id == id && r.stored.value.userId == userId
            && r.stored.value.originalFileName == f.originalName
            && r.stored.value.createdAt == now)
  {
    UploadMatchesReference(f, userId, id, now, w, parse);
    ProgressAtLeast(1, f, w);
  }

  /** Once the transcript is saved it stays saved, whatever fails later;
      before that the stored record has none. */
  lemma TranscriptSurvivesLaterFailure(f: StoredFile, userId: UserId, id: MeetingId, now: Time,
                                       w: UploadWorld, parse: string -> Option<Json>)
    ensures var r := UploadMeeting(Some(f), userId, id, now, w, parse);
      r.stored.Some? ==> (r.stored.value.transcript.Some? <==> PassedFirst(5, f, w))
    ensures PassedFirst(5, f, w) ==>
      && w.transcription.Answered?
      && UploadMeeting(Some(f), userId, id, now, w, parse).stored.Some?
      && UploadMeeting(Some(f), userId, id, now, w, parse).stored.value.transcript
         == Some(w.transcription.value)
  {
    UploadMatchesReference(f, userId, id, now, w, parse);
    ProgressAtLeast(5, f, w);
    ProgressAtLeast(1, f, w);
    if PassedFirst(5, f, w) {
      assert Passes(3, f, w);
    }
  }

  /** Summary and tasks are written by one save: the stored record has both
      or neither. */
  lemma EnrichmentBothOrNothing(f: StoredFile, userId: UserId, id: MeetingId, now: Time,
                                w: UploadWorld, parse: string -> Option<Json>)
    ensures var r := UploadMeeting(Some(f), userId, id, now, w, parse);
      r.stored.Some? ==>
        && (r.stored.value.summary.Some? <==> PassedFirst(7, f, w))
        && (r.stored.value.summary.None? ==> r.stored.value.tasks == NoTasks)
    ensures PassedFirst(7, f, w) ==>
      && w.summary.Answered? && w.taskText.Answered?
      && UploadMeeting(Some(f), userId, id, now, w, parse).stored.Some?
      && UploadMeeting(Some(f), userId, id, now, w, parse).stored.value.summary == Some(w.summary.value)
      && UploadMeeting(Some(f), userId, id, now, w, parse).stored.value.tasks
         == ParseOrEmpty(w.taskText.value, parse)
  {
    UploadMatchesReference(f, userId, id, now, w, parse);
    ProgressAtLeast(7, f, w);
    if PassedFirst(7, f, w) {
      assert Passes(5, f, w);
    }
  }

  // ---------------------------------------------------------------------
  // Calls
  // ---------------------------------------------------------------------

  /** The reference call list starts with the first save, and reaches the
      provider only past the first checkpoint. */
  lemma ExpectedCallsStart(k: nat, f: StoredFile, userId: UserId, id: MeetingId, now: Time,
                           w: UploadWorld, parse: string -> Option<Json>)
    requires k <= 8
    ensures var calls := PipelineCalls(f, userId, id, now, w, parse)[..CallsMade(k)];
      && |calls| >= 1
      && calls[0] == SaveMeeting(NewMeeting(id, userId, f.originalName, now))
      && ((exists i :: 0 <= i < |calls| && IsAiCall(calls[i])) <==> k >= 1)
  {
    var calls := PipelineCalls(f, userId, id, now, w, parse)[..CallsMade(k)];
    if k >= 1 {
      assert IsAiCall(calls[1]);
    } else {
      assert |calls| == 1 && !IsAiCall(calls[0]);
    }
  }

  /** The record is saved before anything else, and the provider is only
      called once that save went through. */
  lemma RecordSavedFirst(f: StoredFile, userId: UserId, id: MeetingId, now: Time,
                         w: UploadWorld, parse: string -> Option<Json>)
    ensures var calls := UploadMeeting(Some(f), userId, id, now, w, parse).calls;
      && |calls| >= 1
      && calls[0] == SaveMeeting(NewMeeting(id, userId, f.originalName, now))
      && ((exists i :: 0 <= i < |calls| && IsAiCall(calls[i])) <==> f.originalName != "" && w.createWrite.Done?)
  {
    UploadMatchesReference(f, userId, id, now, w, parse);
    ProgressAtLeast(1, f, w);
    ExpectedCallsStart(Progress(f, w), f, userId, id, now, w, parse);
  }

  /** A call that forwards a provider result appears in the reference list
      only once that result is in. */
  lemma ExpectedCallsForwarded(k: nat, f: StoredFile, userId: UserId, id: MeetingId, now: Time,
                               w: UploadWorld, parse: string -> Option<Json>)
    requires k <= 8
    requires k >= 3 ==> w.mediaUpload.Answered?
    requires k >= 5 ==> w.transcription.Answered?
    ensures var calls := PipelineCalls(f, userId, id, now, w, parse)[..CallsMade(k)];
      forall i :: 0 <= i < |calls| ==>
        && (calls[i].UploadMedia? ==> calls[i] == UploadMedia(f.path, f.mimeType))
        && (calls[i].Transcribe? ==>
              w.mediaUpload.Answered?
              && calls[i].part == FileData(w.mediaUpload.value.mimeType, w.mediaUpload.value.uri))
        && (calls[i].Summarize? ==>
              w.transcription.Answered? && calls[i].transcript == w.transcription.value)
        && (calls[i].ExtractTaskList? ==>
              w.transcription.Answered? && calls[i].transcript == w.transcription.value)
  {
  }

  /** Each provider request carries what the step before produced: the
      upload sends the stored file's path and type, the transcription request
      the uploaded file's type and URI, and the summary and task requests the
      transcript the provider returned. */
  lemma ArgumentsForwarded(f: StoredFile, userId: UserId, id: MeetingId, now: Time,
                           w: UploadWorld, parse: string -> Option<Json>)
    ensures var calls := UploadMeeting(Some(f), userId, id, now, w, parse).calls;
      forall i :: 0 <= i < |calls| ==>
        && (calls[i].UploadMedia? ==> calls[i] == UploadMedia(f.path, f.mimeType))
        && (calls[i].Transcribe? ==>
              w.mediaUpload.Answered?
              && calls[i].part == FileData(w.mediaUpload.value.mimeType, w.mediaUpload.value.uri))
        && (calls[i].Summarize? ==>
              w.transcription.Answered? && calls[i].transcript == w.transcription.value)
        && (calls[i].ExtractTaskList? ==>
              w.transcription.Answered? && calls[i].transcript == w.transcription.value)
  {
    UploadMatchesReference(f, userId, id, now, w, parse);
    ProgressAtLeast(3, f, w);
    ProgressAtLeast(5, f, w);
    if PassedFirst(3, f, w) {
      assert Passes(1, f, w);
    }
    if PassedFirst(5, f, w) {
      assert Passes(3, f, w);
    }
    ExpectedCallsForwarded(Progress(f, w), f, userId, id, now, w, parse);
  }

  /** No run stops between the summary request and the task request. */
  lemma ExpectedCallsTogether(k: nat, f: StoredFile, userId: UserId, id: MeetingId, now: Time,
                              w: UploadWorld, parse: string -> Option<Json>)
    ensures var calls := PipelineCalls(f, userId, id, now, w, parse)[..CallsMade(k)];
      (exists i :: 0 <= i < |calls| && calls[i].Summarize?)
      <==> (exists j :: 0 <= j < |calls| && calls[j].ExtractTaskList?)
  {
    var calls := PipelineCalls(f, userId, id, now, w, parse)[..CallsMade(k)];
    if |calls| >= 7 {
      assert calls[5].Summarize? && calls[6].ExtractTaskList?;
    } else {
      assert forall i :: 0 <= i < |calls| ==> !calls[i].Summarize? && !calls[i].ExtractTaskList?;
    }
  }

  /** The summary and the task list are requested together: a run makes
      both requests or neither. */
  lemma SummaryAndTasksRequestedTogether(f: StoredFile, userId: UserId, id: MeetingId, now: Time,
                                         w: UploadWorld, parse: string -> Option<Json>)
    ensures var calls := UploadMeeting(Some(f), userId, id, now, w, parse).calls;
      (exists i :: 0 <= i < |calls| && calls[i].Summarize?)
      <==> (exists j :: 0 <= j < |calls| && calls[j].ExtractTaskList?)
  {
    UploadMatchesReference(f, userId, id, now, w, parse);
    ExpectedCallsTogether(Progress(f, w), f, userId, id, now, w, parse);
  }

  // ---------------------------------------------------------------------
  // Failures
  // ---------------------------------------------------------------------

  /** The reference error of a run that stopped at a provider step names
      that step. */
  lemma ErrorAtNamesStage(k: nat, f: StoredFile, w: UploadWorld)
    ensures k == 1 && w.mediaUpload.Rejected? ==>
      Classify(ErrorAt(k, f, w)) == Some((MediaUpload, w.mediaUpload.message))
    ensures k == 3 && w.transcription.Rejected? ==>
      Classify(ErrorAt(k, f, w)) == Some((Transcription, w.transcription.message))
    ensures k == 5 && w.summary.Rejected? && (w.taskText.Answered? || w.summaryRejectsFirst) ==>
      Classify(ErrorAt(k, f, w)) == Some((Summarization, w.summary.message))
    ensures k == 5 && w.taskText.Rejected? && (w.summary.Answered? || !w.summaryRejectsFirst) ==>
      Classify(ErrorAt(k, f, w)) == Some((TaskExtraction, w.taskText.message))
  {
    if k == 1 && w.mediaUpload.Rejected? {
      StageErrorsIdentifyStage(MediaUpload, w.mediaUpload.message);
    } else if k == 3 && w.transcription.Rejected? {
      StageErrorsIdentifyStage(Transcription, w.transcription.message);
    } else if k == 5 && w.summary.Rejected? && (w.taskText.Answered? || w.summaryRejectsFirst) {
      StageErrorsIdentifyStage(Summarization, w.summary.message);
    } else if k == 5 && w.taskText.Rejected? {
      StageErrorsIdentifyStage(TaskExtraction, w.taskText.message);
    }
  }

  /** A failed provider step is reported with an error that names the step
      and carries the provider's own message. */
  lemma FailureNamesStage(f: StoredFile, userId: UserId, id: MeetingId, now: Time,
                          w: UploadWorld, parse: string -> Option<Json>)
    ensures var body := UploadMeeting(Some(f), userId, id, now, w, parse).response.body;
      && (PassedFirst(1, f, w) && w.mediaUpload.Rejected? ==>
            body.Failure? && Classify(body.error) == Some((MediaUpload, w.mediaUpload.message)))
      && (PassedFirst(3, f, w) && w.transcription.Rejected? ==>
            body.Failure? && Classify(body.error) == Some((Transcription, w.transcription.message)))
      && (PassedFirst(5, f, w) && w.summary.Rejected? && (w.taskText.Answered? || w.summaryRejectsFirst) ==>
            body.Failure? && Classify(body.error) == Some((Summarization, w.summary.message)))
      && (PassedFirst(5, f, w) && w.taskText.Rejected? && (w.summary.Answered? || !w.summaryRejectsFirst) ==>
            body.Failure? && Classify(body.error) == Some((TaskExtraction, w.taskText.message)))
  {
    var k := Progress(f, w);
    UploadMatchesReference(f, userId, id, now, w, parse);
    ProgressAtLeast(1, f, w);
    ProgressAtLeast(2, f, w);
    ProgressAtLeast(3, f, w);
    ProgressAtLeast(4, f, w);
    ProgressAtLeast(5, f, w);
    ProgressAtLeast(6, f, w);
    ErrorAtNamesStage(k, f, w);
  }

  /** A failed save or local unlink is reported with the store's or file
      system's message unchanged; an empty original name fails validation. */
  lemma FailureForwardsStoreError(f: StoredFile, userId: UserId, id: MeetingId, now: Time,
                                  w: UploadWorld, parse: string -> Option<Json>)
    ensures var body := UploadMeeting(Some(f), userId, id, now, w, parse).response.body;
      && (f.originalName == "" ==> body == Failure("Failed to process meeting", ValidationMessage))
      && (f.originalName != "" && w.createWrite.Failed? ==>
            body == Failure("Failed to process meeting", w.createWrite.message))
      && (PassedFirst(2, f, w) && w.uriWrite.Failed? ==>
            body == Failure("Failed to process meeting", w.uriWrite.message))
      && (PassedFirst(4, f, w) && w.transcriptWrite.Failed? ==>
            body == Failure("Failed to process meeting", w.transcriptWrite.message))
      && (PassedFirst(6, f, w) && w.enrichWrite.Failed? ==>
            body == Failure("Failed to process meeting", w.enrichWrite.message))
      && (PassedFirst(7, f, w) && f.path != "" && w.unlink.Failed? ==>
            body == Failure("Failed to process meeting", w.unlink.message))
  {
    UploadMatchesReference(f, userId, id, now, w, parse);
    ProgressAtLeast(1, f, w);
    ProgressAtLeast(2, f, w);
    ProgressAtLeast(4, f, w);
    ProgressAtLeast(6, f, w);
    ProgressAtLeast(7, f, w);
  }

  // ---------------------------------------------------------------------
  // Clean-up
  // ---------------------------------------------------------------------

  /** Appending at most one remote deletion to local calls puts it last. */
  lemma RemoteDeletionLast(local: seq<Cleanup>, remote: seq<Cleanup>)
    requires forall i :: 0 <= i < |local| ==> !local[i].DeleteRemote?
    requires |remote| <= 1 && (|remote| == 1 ==> remote[0].DeleteRemote?)
    ensures var cs := local + remote;
      && ((exists i :: 0 <= i < |cs| && cs[i].DeleteRemote?) <==> |remote| == 1)
      && (forall i :: 0 <= i < |cs| && cs[i].DeleteRemote? ==> i == |cs| - 1 && cs[i] == remote[0])
  {
    var cs := local + remote;
    if |remote| == 1 {
      assert cs[|cs| - 1].DeleteRemote?;
    }
  }

  /** The local clean-up calls never delete the remote copy. */
  lemma LocalCleanupsAreLocal(k: nat, f: StoredFile, w: UploadWorld)
    ensures forall i :: 0 <= i < |LocalCleanups(k, f, w)| ==> !LocalCleanups(k, f, w)[i].DeleteRemote?
  {
  }

  /** In the reference clean-up list the remote deletion, if any, is the
      last call and the only one of its kind. */
  lemma ExpectedRemoteDeletion(k: nat, f: StoredFile, w: UploadWorld)
    ensures var cs := ExpectedCleanups(k, f, w);
      && ((exists i :: 0 <= i < |cs| && cs[i].DeleteRemote?) <==> ObtainedUri(f, w) != "")
      && (forall i :: 0 <= i < |cs| && cs[i].DeleteRemote? ==>
            i == |cs| - 1 && cs[i].fileId == FileIdOf(ObtainedUri(f, w)))
  {
    LocalCleanupsAreLocal(k, f, w);
    var remote := RemoteCleanups(f, w);
    var cs := ExpectedCleanups(k, f, w);
    assert cs == LocalCleanups(k, f, w) + remote;
    RemoteDeletionLast(LocalCleanups(k, f, w), remote);
    assert |remote| == 1 <==> ObtainedUri(f, w) != "";
    assert |remote| == 1 ==> remote[0].fileId == FileIdOf(ObtainedUri(f, w));
  }

  /** The remote copy is deleted exactly once when the upload produced a
      URI, and never otherwise; the id sent is the URI's last segment. */
  lemma RemoteCopyDeletedOnce(f: StoredFile, userId: UserId, id: MeetingId, now: Time,
                              w: UploadWorld, parse: string -> Option<Json>)
    ensures var cs := UploadMeeting(Some(f), userId, id, now, w, parse).cleanups;
      && ((exists i :: 0 <= i < |cs| && cs[i].DeleteRemote?) <==> ObtainedUri(f, w) != "")
      && (forall i :: 0 <= i < |cs| && cs[i].DeleteRemote? ==>
            i == |cs| - 1 && cs[i].fileId == FileIdOf(ObtainedUri(f, w)))
  {
    UploadMatchesReference(f, userId, id, now, w, parse);
    ExpectedRemoteDeletion(Progress(f, w), f, w);
  }

  /** The local calls of a run, by checkpoint count. */
  lemma ExpectedLocalCleanup(k: nat, f: StoredFile, w: UploadWorld)
    requires k <= 8
    ensures var cs := LocalCleanups(k, f, w);
      && (f.path == "" ==> cs == [])
      && (f.path != "" && k == 8 ==> cs == [Unlink(f.path)])
      && (f.path != "" && k < 8 ==>
            && Stat(f.path) in cs
            && (Unlink(f.path) in cs <==> w.statFindsFile || k == 7))
  {
    var cs := LocalCleanups(k, f, w);
    if f.path != "" && k < 8 {
      var first := if k == 7 then [Unlink(f.path)] else [];
      var after := [Stat(f.path)] + (if w.statFindsFile then [Unlink(f.path)] else []);
      assert cs == first + after;
      assert cs[|first|] == Stat(f.path);
      if w.statFindsFile {
        assert cs[|first| + 1] == Unlink(f.path);
      } else if k == 7 {
        assert cs[0] == Unlink(f.path);
      } else {
        assert cs == [Stat(f.path)];
      }
    }
  }

  /** Appending remote deletions changes nothing about which local calls a
      list holds. */
  lemma LocalCallsKept(local: seq<Cleanup>, remote: seq<Cleanup>, c: Cleanup)
    requires forall i :: 0 <= i < |remote| ==> remote[i].DeleteRemote?
    requires !c.DeleteRemote?
    ensures c in local + remote <==> c in local
  {
    if c in local + remote {
      var i :| 0 <= i < |local + remote| && (local + remote)[i] == c;
      assert i < |local|;
    }
  }

  /** The local calls as they appear in the whole reference clean-up list. */
  lemma ExpectedLocalFileCleanup(k: nat, f: StoredFile, w: UploadWorld)
    requires k <= 8
    ensures var cs := ExpectedCleanups(k, f, w);
      && (f.path == "" ==> forall i :: 0 <= i < |cs| ==> cs[i].DeleteRemote?)
      && (f.path != "" && k == 8 ==> cs[0] == Unlink(f.path) && Stat(f.path) !in cs)
      && (f.path != "" && k < 8 ==>
            && Stat(f.path) in cs
            && (Unlink(f.path) in cs <==> w.statFindsFile || k == 7))
  {
    ExpectedLocalCleanup(k, f, w);
    var local := LocalCleanups(k, f, w);
    var remote := RemoteCleanups(f, w);
    LocalCallsKept(local, remote, Stat(f.path));
    LocalCallsKept(local, remote, Unlink(f.path));
    if f.path == "" {
      assert local + remote == remote;
    }
  }

  /** The local file is handled by the path that ran: a successful run
      unlinks it and never stats it; a failed run stats it, and it is
      unlinked only if the stat found it or the success-path unlink was the
      step that failed.  Without a local path no local call is made. */
  lemma LocalFileCleanup(f: StoredFile, userId: UserId, id: MeetingId, now: Time,
                         w: UploadWorld, parse: string -> Option<Json>)
    ensures var r := UploadMeeting(Some(f), userId, id, now, w, parse);
      && (f.path == "" ==> forall i :: 0 <= i < |r.cleanups| ==> r.cleanups[i].DeleteRemote?)
      && (f.path != "" && r.response.status == 200 ==>
            r.cleanups[0] == Unlink(f.path) && Stat(f.path) !in r.cleanups)
      && (f.path != "" && r.response.status == 500 ==>
            && Stat(f.path) in r.cleanups
            && (Unlink(f.path) in r.cleanups <==> w.statFindsFile || PassedFirst(7, f, w)))
  {
    var k := Progress(f, w);
    UploadMatchesReference(f, userId, id, now, w, parse);
    ProgressAtLeast(7, f, w);
    ExpectedLocalFileCleanup(k, f, w);
  }

  /** Two runs that agree on everything except how the clean-up calls
      (the success-path remote deletion and the error handler's unlink and
      remote deletion) turn out. */
  predicate DifferOnlyInCleanup(w: UploadWorld, w': UploadWorld) {
    && w'.createWrite == w.createWrite && w'.mediaUpload == w.mediaUpload
    && w'.uriWrite == w.uriWrite && w'.transcription == w.transcription
    && w'.transcriptWrite == w.transcriptWrite && w'.summary == w.summary
    && w'.taskText == w.taskText && w'.summaryRejectsFirst == w.summaryRejectsFirst
    && w'.enrichWrite == w.enrichWrite && w'.unlink == w.unlink
    && w'.statFindsFile == w.statFindsFile
  }

  /** The reference report does not depend on how the clean-up calls
      turn out. */
  lemma ReferenceIgnoresCleanupOutcomes(k: nat, f: StoredFile, userId: UserId, id: MeetingId, now: Time,
                                        w: UploadWorld, w': UploadWorld, parse: string -> Option<Json>)
    requires DifferOnlyInCleanup(w, w')
    ensures Checkpoints(f, w') == Checkpoints(f, w)
    ensures ReferenceReport(k, f, userId, id, now, w', parse) == ReferenceReport(k, f, userId, id, now, w, parse)
  {
  }

  /** Clean-up never changes the outcome: whatever the clean-up deletions
      and unlinks do, the store, the calls and the response are the same. */
  lemma CleanupOutcomesIgnored(f: StoredFile, userId: UserId, id: MeetingId, now: Time,
                               w: UploadWorld, w': UploadWorld, parse: string -> Option<Json>)
    requires DifferOnlyInCleanup(w, w')
    ensures UploadMeeting(Some(f), userId, id, now, w', parse) == UploadMeeting(Some(f), userId, id, now, w, parse)
  {
    UploadMatchesReference(f, userId, id, now, w, parse);
    UploadMatchesReference(f, userId, id, now, w', parse);
    ReferenceIgnoresCleanupOutcomes(Progress(f, w), f, userId, id, now, w, w', parse);
  }
}
