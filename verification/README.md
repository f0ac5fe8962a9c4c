# Minute_Made meeting pipeline, modelled in Dafny

This project models the backend core of Minute_Made, a service where a user uploads a meeting recording. The backend stores a Meeting record, sends the media to Gemini for a transcript, asks for a summary and a task list, saves the results, and cleans up the local and remote copies of the file. The model covers four parts:

- **The request handlers** (`meetingController.js`):
  - `uploadMeeting`: the five-step pipeline with its success-path and error-path clean-up;
  - `summarizeMeeting`: re-summarizing one meeting;
  - `getMeetings` and `getMeetingById`: the owner-scoped queries.
- **The Gemini wrapper** (`geminiService.js`):
  - the stage-prefixed error wrapping;
  - the parse-or-empty policy of the task extraction;
  - the file id cut out of a URI;
  - a deletion that never fails.
- **The multer configuration** (`uploadMiddleware.js`): the media-type filter, the stored file name and destination, and the 100 MiB limit.
- **The Meeting schema** (`Meeting.js`): the fields, the required ones and the defaults.

Every external call is an input of the model:

- the database writes and queries;
- the Gemini File API and generation calls;
- `fs.unlink` and `fs.stat`;
- `JSON.parse`;
- `Date.now()`.

A database or file-system call is an `Outcome`: it either succeeds or fails with a message. A provider call is a `Reply`: it is either answered with a value or rejected with a message. One upload request is described by an `UploadWorld`, which holds the outcome of each call the handler can reach. A handler is then a pure function from the request and its world to three things:

- what is stored;
- which calls were made, with which arguments;
- the HTTP response.

The upload handler's properties are proved against a flat reference in `UploadProperties`. The reference lists the pipeline's eight checkpoints in order and counts how many pass before the first one fails. From that count alone it says what the store holds, which calls were made, which clean-up calls followed, and what the response is. `UploadMatchesReference` proves the handler's nested control flow agrees with that reference on every input. The lemmas in `UploadTheorems` read the promised behaviour off it.

Modules:

- `Outcomes`: option, result and outcome types.
- `Text`: the JavaScript string built-ins the source relies on.
- `MeetingModel`: the schema.
- `UploadMiddleware`: the multer configuration.
- `GeminiService`: the Gemini wrapper.
- `MeetingController`: the four handlers.
- `UploadProperties`: the checkpoint reference.
- `UploadTheorems`: the properties of the upload handler.
- `MeetingProperties`: the properties of the other handlers.

## Behaviour of the code worth noting

- **Task extraction failure.** A rejected task-extraction request is fatal, exactly like a rejected summary request: it is re-thrown with its stage prefix (`geminiService.js:89-92`) and the upload answers 500. Only task text that is not JSON becomes `[]` (`geminiService.js:85-88`).
- **Task elements.** The parsed task value is stored as it is (`geminiService.js:84`, `meetingController.js:49-51`); no field of a task is checked or filled in.
- **The remote reference.** The Gemini file URI is assigned to `meeting.geminiFileUri` (`meetingController.js:34`), but that is not a schema path (`Meeting.js:3-27`). The second save therefore writes the record unchanged, and the URI lives only in the handler's local variable.
- **Success-path unlink.** The `fs.unlink` after a fully processed meeting is not wrapped in its own `try` (`meetingController.js:55-58`). When it fails, the catch block runs its clean-up and the answer is 500, although the stored meeting is complete.
- **Ordering of the AI requests.** `uploadMeeting` issues the summary and task requests together through `Promise.all` (`meetingController.js:45-48`). `summarizeMeeting` awaits the summary before it asks for the tasks (`meetingController.js:108-109`).

## Model

| member | source | states |
|---|---|---|
| MeetingModel.NewMeeting | backend/models/Meeting.js:3-27 | A new document carries the given owner and file name, no summary and no transcript, the empty task array as the `tasks` default, and the creation time as the `createdAt` default |
| MeetingModel.Save | backend/models/Meeting.js:9-12 | `save()` succeeds exactly when the required `originalFileName` is non-empty and the database write succeeds; an invalid document fails with Mongoose's validation message naming the `originalFileName` path, and its write is never attempted |
| UploadMiddleware.FileFilter | backend/middleware/uploadMiddleware.js:13-20 | The filter accepts exactly the `audio/` and `video/` MIME types, with no error; everything else is refused with "Only audio and video files are allowed!" |
| UploadMiddleware.FilterAcceptsExactlyMedia | backend/middleware/uploadMiddleware.js:15 | A type is accepted if and only if it is `audio/` or `video/` followed by any subtype |
| UploadMiddleware.StoredFileName | backend/middleware/uploadMiddleware.js:8-10 | The stored name ends with a dash followed by the client's original file name |
| UploadMiddleware.StoredFileNameRoundTrip | backend/middleware/uploadMiddleware.js:9 | Both parts of the stored name can be recovered: everything after the first dash is the original name, and the decimal time stamp in front of it reads back as the upload time |
| UploadMiddleware.Admit | backend/middleware/uploadMiddleware.js:4-26 | A file is stored exactly when it is audio or video and at most 100 MiB. The filter error wins over the size error. A stored file keeps its name, type and size, lives under `uploads/`, and its file name ends with the original name |
| UploadMiddleware.SizeLimitBoundary | backend/middleware/uploadMiddleware.js:25 | The limit is inclusive: exactly 104857600 bytes of audio are stored, and one byte more is refused with "File too large" |
| Text.StartsWithIff | backend/middleware/uploadMiddleware.js:15 | `startsWith(p)` holds exactly when the string is `p` followed by something |
| Text.SplitJoin | backend/services/geminiService.js:97 | Splitting at a one-character separator loses nothing: joining the pieces back gives the original string |
| Text.SplitPopIsAfterLast | backend/services/geminiService.js:97 | `split(sep).pop()` is the text after the last separator, or the whole string when it has none |
| Text.DecimalRoundTrip | backend/middleware/uploadMiddleware.js:9 | The decimal rendering of `Date.now()` reads back as the same number |
| GeminiService.Guard | backend/services/geminiService.js:26-29 | A stage passes an answer through unchanged and turns a rejection into an error whose message is the stage's prefix followed by the provider's message |
| GeminiService.GuardNamesStage | backend/services/geminiService.js:18-93 | A failure re-thrown by any of the four stages classifies back to that stage and to the provider's own message |
| GeminiService.StageErrorsIdentifyStage | backend/services/geminiService.js:18-93 | The four stage prefixes are distinguishable: a message built from any prefix and any provider message names its stage and no other |
| GeminiService.TranscriptionPart | backend/services/geminiService.js:42 | The transcription request's media part carries the uploaded file's MIME type and URI |
| GeminiService.ParseOrEmpty | backend/services/geminiService.js:83-88 | Task text that parses is stored as the parsed value; text that does not parse becomes the empty array |
| GeminiService.ExtractTasks | backend/services/geminiService.js:71-93 | Task extraction succeeds exactly when the provider answers, with the parse-or-empty value; a provider failure is re-thrown with the task-extraction prefix |
| GeminiService.FileIdOf | backend/services/geminiService.js:97 | The file id contains no slash and is a suffix of the URI. For a URI with a slash it is the text behind the last one; for a URI without one it is the whole URI |
| GeminiService.FileIdIsSplitPop | backend/services/geminiService.js:97 | The file id is what `fileUri.split('/').pop()` evaluates to |
| GeminiService.DeleteGeminiFile | backend/services/geminiService.js:95-105 | Deleting a remote file sends the URI's file id and always resolves, whatever the File API did |
| MeetingController.AwaitBoth | backend/controllers/meetingController.js:45-48 | `Promise.all` yields both values exactly when both requests succeed; otherwise it rejects with the message of one that failed |
| MeetingController.UploadMeeting | backend/controllers/meetingController.js:5-95 | A request without a file gets 400 "No file uploaded." with nothing stored and no call made. Otherwise the answer is 200 with the stored record's id, transcript, summary and tasks, or 500 "Failed to process meeting" |
| UploadProperties.ReportAt0 | backend/controllers/meetingController.js:24-28 | When the first save fails, nothing is stored and the first save is the only call. The error is the validation message or the store's |
| UploadProperties.ReportAt1 | backend/controllers/meetingController.js:32 | When the media upload is rejected, the fresh record stays stored and the error carries the upload prefix. No remote copy exists to delete |
| UploadProperties.ReportAt2 | backend/controllers/meetingController.js:33-35 | When the save after the upload fails, the fresh record stays stored and the remote copy obtained is deleted in the error handler |
| UploadProperties.ReportAt3 | backend/controllers/meetingController.js:39 | When transcription is rejected, the record stays without a transcript and the error carries the transcription prefix |
| UploadProperties.ReportAt4 | backend/controllers/meetingController.js:40-41 | When the transcript save fails, the stored record keeps no transcript and the store's error is reported |
| UploadProperties.ReportAt5 | backend/controllers/meetingController.js:45-48 | When the summary or task request is rejected, both requests were made and the transcript stays stored. The error is the first rejection's, with its stage prefix |
| UploadProperties.ReportAt6 | backend/controllers/meetingController.js:49-51 | When the enrichment save fails, the stored record has its transcript but neither summary nor tasks |
| UploadProperties.ReportAt7 | backend/controllers/meetingController.js:55-58 | When the success-path unlink fails, the fully enriched record is stored but the answer is 500. The error handler still stats the file and deletes the remote copy |
| UploadProperties.ReportAt8 | backend/controllers/meetingController.js:55-70 | When every step passes, the local file is unlinked and the remote copy deleted, and the answer is 200 with the enriched record |
| UploadProperties.UploadMatchesReference | backend/controllers/meetingController.js:10-94 | For every request with a file, the handler stores, calls, cleans up and answers exactly as the checkpoint count says |
| UploadTheorems.SucceedsIffAllPass | backend/controllers/meetingController.js:22-70 | An upload is answered 200 if and only if all eight steps pass |
| UploadTheorems.SuccessReportsResults | backend/controllers/meetingController.js:64-70 | A 200 answer reports the provider's transcript and summary, and the tasks parsed from its task answer |
| UploadTheorems.UnparsableTasksStillSucceed | backend/services/geminiService.js:85-88 | Task text that is not JSON does not fail the upload: the meeting is stored and reported with an empty task list |
| UploadTheorems.StoredIdentity | backend/controllers/meetingController.js:24-28 | A record is stored if and only if the first save passes. It always carries the caller as owner, the given id, the original file name and the creation time |
| UploadTheorems.TranscriptSurvivesLaterFailure | backend/controllers/meetingController.js:39-41 | Once the transcript save passes, the stored record keeps the provider's transcript whatever fails later; before that it has none |
| UploadTheorems.EnrichmentBothOrNothing | backend/controllers/meetingController.js:49-51 | Summary and tasks are stored together. A stored record has a summary exactly when the enrichment save passed; without one, its tasks are still the empty default |
| UploadTheorems.RecordSavedFirst | backend/controllers/meetingController.js:24-32 | The first call is always the save of the fresh record, and the provider is called if and only if that save passed |
| UploadTheorems.ArgumentsForwarded | backend/controllers/meetingController.js:32-47 | Each provider request carries what the step before produced. The upload sends the stored path and type; transcription sends the uploaded file's type and URI; summary and tasks send the returned transcript |
| UploadTheorems.SummaryAndTasksRequestedTogether | backend/controllers/meetingController.js:45-48 | A run makes the summary request if and only if it makes the task request |
| UploadTheorems.FailureNamesStage | backend/controllers/meetingController.js:93 | A rejected provider step is reported with an error that classifies back to that step and to the provider's own message. When both enrichment requests fail, the one that settled first is reported |
| UploadTheorems.FailureForwardsStoreError | backend/controllers/meetingController.js:93 | A failed save or success-path unlink is reported with the store's or file system's message unchanged; an empty original name reports the validation error |
| UploadTheorems.RemoteCopyDeletedOnce | backend/controllers/meetingController.js:55-92 | The remote copy is deleted exactly once, as the last clean-up call, if and only if the upload produced a non-empty URI. The id sent is the URI's file id |
| UploadTheorems.LocalFileCleanup | backend/controllers/meetingController.js:55-84 | A successful run unlinks the local file and never stats it. A failed run stats it, and unlinks it only if the stat found it or the success-path unlink was the failing step. Without a path, no local call is made |
| UploadTheorems.CleanupOutcomesIgnored | backend/controllers/meetingController.js:77-92 | How the clean-up unlink and the remote deletions turn out never changes the stored record, the calls or the answer |
| MeetingController.FindOwned | backend/controllers/meetingController.js:138 | The query `{ _id, userId }` finds the first document matching both, and finds none exactly when no document matches |
| MeetingController.Refreshed | backend/controllers/meetingController.js:110-111 | Re-summarizing replaces the summary and tasks and keeps the id, owner, file name, transcript and creation time |
| MeetingController.SummarizeMeeting | backend/controllers/meetingController.js:97-122 | 404 exactly when the caller owns no meeting with that id; 400 exactly when the found meeting has no non-empty transcript; 200 exactly when both AI requests, validation and the save succeed. On 200 the found document is replaced by its refreshed version; otherwise the store is unchanged |
| MeetingProperties.ResummarizeTouchesOnlyTarget | backend/controllers/meetingController.js:101-112 | Re-summarizing keeps the store's size and leaves every document not matching the id and the caller as it was |
| MeetingProperties.ExtractionOnlyAfterSummary | backend/controllers/meetingController.js:108-109 | The task request is made only after the summary came back, with the same transcript; a rejected summary ends the trace after the summary request |
| MeetingProperties.ResummarizeTwiceKeepsSecond | backend/controllers/meetingController.js:110-112 | After two successful re-summaries in a row, the meeting holds the second call's summary and tasks only, and everything else is as before the first |
| MeetingController.Owned | backend/controllers/meetingController.js:127 | `find({ userId })` returns each of the caller's documents exactly as often as the store holds it, and no other document |
| MeetingController.SortNewestFirst | backend/controllers/meetingController.js:127 | `sort({ createdAt: -1 })` returns a permutation of its input with `createdAt` never increasing |
| MeetingController.GetMeetings | backend/controllers/meetingController.js:124-133 | A failed query gives 500 "Failed to fetch meetings". Otherwise the answer is 200 with the caller's documents, newest first, each exactly as often as in the store and no other document |
| MeetingProperties.MeetingsListedIffOwned | backend/controllers/meetingController.js:127-128 | A document is listed if and only if it is in the store and owned by the caller |
| MeetingController.GetMeetingById | backend/controllers/meetingController.js:135-147 | 404 exactly when no document matches both the id and the caller; 200 with a stored document matching both; a failed query gives 500 "Failed to fetch meeting" |
| MeetingProperties.MeetingByIdIsFirstMatch | backend/controllers/meetingController.js:138-142 | A lookup succeeds if and only if a matching document exists, and then answers with the first one |

## Left out

- **External calls.** The database, the file system, the Gemini SDK and the clock are not executed. Each call is an input outcome, and the model records the call with its arguments.
- **Text that does not affect the result.** Logging (`console.*`), the prompt texts, the safety settings and the model names are not modelled.
- **Constant response messages.** The success messages of the 200 responses ("Meeting uploaded and processed successfully!", "Meeting re-summarized and tasks re-extracted successfully!") are constant strings and are not carried in the response bodies.
- **Ids and casting.**
  - `ObjectId`s are natural numbers, so the `CastError` a malformed id raises in `findOne` is not modelled.
  - Mongoose's casting of a non-array parsed task value into an array is not modelled; the parsed value is stored as is.
- **JSON numbers.** These are integers; floating-point numbers are not modelled.
- **Multer details.** `path.join` normalisation of the stored path is not modelled: the path is `uploads/` followed by the file name. Multer's other limits and errors (field counts, aborted streams) are not modelled.
- **Timing of `Promise.all`.** Which rejection settles first when both enrichment requests fail is an input of the world, not a timing model. A request whose partner already failed still counts as made.
- **Files outside the core.**
  - `backend/utils/openai.js` (the alternative OpenAI pipeline) is not part of this model.
  - `backend/app.js`, `backend/routes/meeting.js`, `backend/testGemini.js` and the authentication middleware are not part of this model. The caller's id is a parameter.
- **Sort ties.** The order of documents with equal `createdAt` is not fixed: `SortNewestFirst` promises only the order and the permutation.
