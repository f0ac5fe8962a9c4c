/** The Meeting document of `backend/models/Meeting.js`: its fields, which of
    them are required, and the defaults a freshly constructed document gets. */
module MeetingModel {
  import opened Outcomes

  /** Database ids (`ObjectId`), kept opaque. */
  type MeetingId = nat
  type UserId = nat

  /** Milliseconds since the epoch, as `Date.now()` returns them.  The one
      clock type of the model: `createdAt` and the time stamp in a stored
      file's name both read it. */
  type Time = nat

  /** A JSON value as `JSON.parse` produces it (numbers restricted to
      integers).  The `tasks` field holds whatever the task extraction parsed,
      unchecked. */
  datatype Json =
    | Null
    | Bool(b: bool)
    | Number(n: int)
    | Str(s: string)
    | Arr(items: seq<Json>)
    | Obj(fields: seq<(string, Json)>)

  /** The default of the `tasks` field: the empty array. */
  const NoTasks: Json := Arr([])

  /** One Meeting document.  `userId` and `originalFileName` are required;
      `summary` and `transcript` are optional strings; `tasks` and `createdAt`
      have defaults. */
  datatype Meeting = Meeting(
    id: MeetingId,
    userId: UserId,
    originalFileName: string,
    summary: Option<string>,
    tasks: Json,
    transcript: Option<string>,
    createdAt: Time)

  /** `new Meeting({ userId, originalFileName })` at time `now`: the two given
      fields are set, `tasks` is the empty array, `createdAt` is `now`, and
      neither a summary nor a transcript exists yet. */
  function NewMeeting(id: MeetingId, userId: UserId, originalFileName: string, now: Time): (m: Meeting)
    ensures m.id == id && m.userId == userId && m.originalFileName == originalFileName
    ensures m.summary.None? && m.transcript.None?
    ensures m.tasks == NoTasks && m.createdAt == now
  {
    Meeting(id, userId, originalFileName, None, NoTasks, None, now)
  }

  /** The schema's `required` validators.  A required String path rejects
      the empty string; `userId` cannot be missing since its type has no
      absent value. */
  predicate Valid(m: Meeting) {
    m.originalFileName != ""
  }

  /** Message of the `ValidationError` `save()` rejects with when the
      required `originalFileName` is missing: the model name, the failing
      path, and the `required` validator's own message. */
  const ValidationMessage := "Meeting validation failed: originalFileName: Path `originalFileName` is required."

  /** `doc.save()`: validate, then perform the database write whose outcome
      `write` is.  The write is not attempted for an invalid document. */
  function Save(m: Meeting, write: Outcome): (r: Outcome)
    ensures r.Done? <==> Valid(m) && write.Done?
    ensures !Valid(m) ==> r == Failed(ValidationMessage)
    ensures Valid(m) ==> r == write
  {
    if !Valid(m) then Failed(ValidationMessage) else write
  }

  /** JavaScript truthiness of `meeting.transcript`: present and non-empty. */
  predicate HasTranscript(m: Meeting) {
    m.transcript.Some? && m.transcript.value != ""
  }
}
