/** Properties of `summarizeMeeting`, `getMeetings` and `getMeetingById`
    that relate several calls or read the contracts back in the terms the
    handlers promise: ownership, replacement, and the order of the AI
    requests. */
module MeetingProperties {
  import opened Outcomes
  import opened MeetingModel
  import opened GeminiService
  import opened MeetingController

  /** Re-summarizing only ever rewrites the caller's matching meeting: the
      store keeps its length, and every other document, in particular every
      document of another user, is left as it was. */
  lemma ResummarizeTouchesOnlyTarget(store: seq<Meeting>, meetingId: MeetingId, userId: UserId,
                                     w: ResummarizeWorld, parse: string -> Option<Json>)
    ensures var r := SummarizeMeeting(store, meetingId, userId, w, parse);
      && |r.store| == |store|
      && forall j :: 0 <= j < |store| && !Matches(store[j], meetingId, userId) ==> r.store[j] == store[j]
  {
  }

  /** The tasks are only requested once the summary came back, and from the
      same transcript; a summary failure leaves the trace at the lookup and
      the summary request. */
  lemma ExtractionOnlyAfterSummary(store: seq<Meeting>, meetingId: MeetingId, userId: UserId,
                                   w: ResummarizeWorld, parse: string -> Option<Json>)
    ensures var r := SummarizeMeeting(store, meetingId, userId, w, parse);
      && (forall k :: 0 <= k < |r.trace| && r.trace[k].ExtractTaskList? ==>
            && w.summary.Answered?
            && k >= 1 && r.trace[k - 1] == Summarize(r.trace[k].transcript))
      && (w.summary.Rejected? ==> |r.trace| <= 2)
  {
  }

  /** Two successful re-summaries in a row: the meeting ends up with the
      second call's summary and tasks only, everything else about it, and
      every other document, as before the first. */
  lemma ResummarizeTwiceKeepsSecond(store: seq<Meeting>, meetingId: MeetingId, userId: UserId,
                                    w1: ResummarizeWorld, w2: ResummarizeWorld, parse: string -> Option<Json>)
    requires SummarizeMeeting(store, meetingId, userId, w1, parse).response.status == 200
    requires SummarizeMeeting(SummarizeMeeting(store, meetingId, userId, w1, parse).store,
                              meetingId, userId, w2, parse).response.status == 200
    ensures var i := FindOwned(store, meetingId, userId).value;
      && w2.summary.Answered? && w2.taskText.Answered?
      && SummarizeMeeting(SummarizeMeeting(store, meetingId, userId, w1, parse).store,
                          meetingId, userId, w2, parse).store
         == store[i := Refreshed(store[i], w2.summary.value, ParseOrEmpty(w2.taskText.value, parse))]
  {
    var i := FindOwned(store, meetingId, userId).value;
    var s1 := SummarizeMeeting(store, meetingId, userId, w1, parse).store;
    assert s1 == store[i := Refreshed(store[i], w1.summary.value, ParseOrEmpty(w1.taskText.value, parse))];
    assert Matches(s1[i], meetingId, userId);
    assert forall j :: 0 <= j < i ==> s1[j] == store[j];
    assert FindOwned(s1, meetingId, userId) == Some(i);
    var m2 := Refreshed(s1[i], w2.summary.value, ParseOrEmpty(w2.taskText.value, parse));
    assert m2 == Refreshed(store[i], w2.summary.value, ParseOrEmpty(w2.taskText.value, parse));
  }

  /** The listing holds exactly the caller's meetings: a document is listed
      if and only if it is in the store and owned by the caller. */
  lemma MeetingsListedIffOwned(store: seq<Meeting>, userId: UserId, lookup: Outcome)
    requires lookup.Done?
    ensures var list := GetMeetings(store, userId, lookup).body.meetings;
      forall m :: m in list <==> m in store && m.userId == userId
  {
    var list := GetMeetings(store, userId, lookup).body.meetings;
    var owned := Owned(store, userId);
    assert multiset(list) == multiset(owned);
    forall m ensures m in list <==> m in owned {
      assert m in list <==> m in multiset(list);
      assert m in owned <==> m in multiset(owned);
    }
  }

  /** A single-meeting lookup answers with the first document matching both
      the id and the caller, and finds one exactly when such a document
      exists. */
  lemma MeetingByIdIsFirstMatch(store: seq<Meeting>, id: MeetingId, userId: UserId, lookup: Outcome)
    requires lookup.Done?
    ensures GetMeetingById(store, id, userId, lookup).status == 200
        <==> exists j :: 0 <= j < |store| && Matches(store[j], id, userId)
    ensures GetMeetingById(store, id, userId, lookup).status == 200 ==>
      exists j :: 0 <= j < |store| && GetMeetingById(store, id, userId, lookup).body.meeting == store[j]
        && Matches(store[j], id, userId)
        && forall k :: 0 <= k < j ==> !Matches(store[k], id, userId)
  {
    var r := GetMeetingById(store, id, userId, lookup);
    if r.status == 200 {
      var j := FindOwned(store, id, userId).value;
      assert r.body.meeting == store[j];
    }
  }
}
