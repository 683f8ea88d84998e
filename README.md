# Interview recorder: a Dafny model

This project models the client side of a mock-interview web app. On the
interview page the user records a video of themself answering. When the
recording stops, the page assembles the recorded chunks into one file. If
the file is not already MP4, QuickTime or MOV, the page converts it to MP4
with ffmpeg running in the browser. It then uploads the file to an analysis
service and, on success, opens the results page with the returned analysis.
The results page colours scores into bands and picks the dominant emotion of
the facial analysis.

The model has these modules:

- `Text`: ASCII case folding, and the decimal rendering of a status code.
- `Media`: blobs and their assembly from chunks.
- `JsonValue`: the parsed JSON answer as the page's JavaScript sees it:
  truthiness, property reads, and the entries `Object.entries` lists.
- `Mime`: the case-insensitive test `mp4|quicktime|mov` that decides
  between uploading as-is and converting.
- `Negotiation`: the loop that picks the recorder's MIME type from the
  preference list.
- `Upload`: one multipart upload and how its outcome becomes a status line.
- `Interview`: the page's controller as a class. Its fields are the page
  state: recording flag, status, stream, recorder, chunks, the ffmpeg
  flags and the stored analysis. Its methods are the event handlers.
- `Results`: the score bands, the dominant emotion (a loop proved against
  a fold), and the guard for a results page opened without data.

Browser services are parameters of the methods that use them:

- the camera grant or refusal: `Acquisition`;
- what `MediaRecorder.isTypeSupported` answers: `Runtime`;
- whether the recorder constructor or `start()` throws: `RecorderSetup`;
- whether the ffmpeg module imports and loads, and what a conversion
  yields: `Ffmpeg`;
- what `fetch` settles to: `FetchOutcome`.

Ghost fields of the controller record what the page did: every status it
showed, every chunk the recorder delivered, every request sent, every
navigation to the results page, and every call to ffmpeg's `load()`.

## Model

| member | source | states |
|---|---|---|
| Text.LowerAscii | src/interview.js:66 | upper-case ASCII letters map to lower case; every other character is kept; the result is never upper case |
| Text.Lower | src/interview.js:66 | case folding keeps the length and folds each position independently |
| Text.LowerIdempotent | src/interview.js:63-66 | folding an already folded string changes nothing |
| Text.Decimal | src/interview.js:145 | a status code renders as a non-empty digit string with no leading zero |
| Text.DecimalRoundTrip | src/interview.js:145 | reading the rendered digits back gives the status code |
| Text.DecimalInjective | src/interview.js:145 | different status codes render differently |
| Media.BlobTypeOf | src/interview.js:63 | a blob's `type` is the requested type lower-cased when all its characters are printable ASCII, and empty otherwise |
| Media.MakeBlob | src/interview.js:63 | the assembled recording is as long as its chunks together and carries the normalised type |
| Media.ConcatLength | src/interview.js:63 | concatenating chunks adds up their sizes |
| Media.KeptChunksAppend | src/interview.js:52-56 | a delivered chunk is appended when it is present and non-empty; otherwise the kept list is unchanged |
| Media.KeptChunksMembers | src/interview.js:52-56 | the kept chunks are exactly the present, non-empty delivered ones, and there are no more of them than deliveries |
| Media.KeptChunksKeepAllBytes | src/interview.js:52-63 | dropping empty and missing chunks loses no byte: the kept chunks concatenate to all delivered bytes in order |
| Media.RecordingHoldsDeliveredBytes | src/interview.js:52-63 | the assembled recording holds every delivered byte, in delivery order |
| JsonValue.Member | src/results.js:21 | a property read is undefined exactly when the key is absent, and otherwise gives the value of the key's last occurrence |
| JsonValue.KeyIndex | src/results.js:43 | the position of a key's first occurrence, or the length when it has none |
| JsonValue.ObjectEntriesKeys | src/results.js:43 | the entries of a parsed object name each of its keys exactly once, and no other key |
| JsonValue.ObjectEntriesValues | src/results.js:43 | each entry carries the value a property read of its key gives, the last one written |
| JsonValue.ObjectEntriesOrder | src/results.js:43 | the entries follow the order in which their keys first occur |
| JsonValue.ObjectEntriesSpec | src/results.js:43 | the three facts together: one entry per distinct key, in first-occurrence order, with the last value |
| Mime.SearchFrom | src/interview.js:66 | the scan finds a marker exactly when it occurs, ignoring case, at or after the start position |
| Mime.Contains | src/interview.js:66 | a marker is found exactly when it occurs somewhere, ignoring case |
| Mime.IsMp4Family | src/interview.js:66 | the test succeeds exactly when `mp4`, `quicktime` or `mov` occurs in any mix of case |
| Mime.MatchesAtLower | src/interview.js:63-66 | a marker matches a folded string at a position exactly when it matches the original there |
| Mime.IsMp4FamilyLower | src/interview.js:63-66 | folding a type does not change the test's answer |
| Mime.PassthroughDependsOnMimeOnly | src/interview.js:62-66 | testing the blob's type as well as the MIME type decides the same as testing the MIME type alone |
| Mime.MarkerStart | src/interview.js:66 | a match starts with `m` or `q`, and its first two letters agree with the string there |
| Mime.NoMarkerWithoutStart | src/interview.js:66 | a type with no `q` and no `m` followed by `p` or `o` fails the test |
| Mime.Mp4PreferencesPassThrough | src/interview.js:32-66 | recordings typed `video/mp4` or `video/quicktime` are uploaded without conversion |
| Mime.WebmPreferencesAreConverted | src/interview.js:32-72 | recordings typed `video/webm` or `video/webm;codecs=vp8,opus` are converted |
| Negotiation.FirstAccepted | src/interview.js:33-44 | the index is that of the first accepted candidate, or the length when none is accepted |
| Negotiation.NegotiateType | src/interview.js:31-46 | the loop's choice is the first preference the runtime accepts, or `video/mp4` when none is |
| Negotiation.NegotiatedIsPreferred | src/interview.js:31-46 | the chosen type is always one of the four preferences |
| Negotiation.FirstAcceptedIsChosen | src/interview.js:33-44 | a preference is chosen when it is accepted and no earlier preference is |
| Negotiation.FallbackIsFirstPreference | src/interview.js:45-46 | when no preference is accepted, the choice is the first preference |
| Negotiation.NoProbeFallsBack | src/interview.js:34-46 | without an `isTypeSupported` function the choice is `video/mp4` |
| Upload.Attempt | src/interview.js:143-148 | the upload yields the parsed answer exactly when fetch resolved with a 2xx status and the body parsed; a non-2xx status yields the "Upload failed" error |
| Upload.CompletedIffAnalysis | src/interview.js:143-158 | the upload ends with the completion message exactly when it produced analysis data |
| Upload.FailureUsesUploadPrefix | src/interview.js:157-158 | a failed upload is reported with `Error: `, not with the conversion pipeline's prefix |
| Upload.RejectionReportsStatusAndBody | src/interview.js:143-146 | a rejected response is reported as "Upload failed:", the status code, a space and the body text |
| Upload.ServerErrorExample | src/interview.js:143-158 | a 500 response with body "server error" shows `Error: Upload failed: 500 server error` |
| Interview.EffectiveMime | src/interview.js:62 | the stop handler works with the recorder's type, or `video/webm` when the recorder reports none |
| Interview.MediaStream.constructor | src/interview.js:23-26 | a newly granted stream has the given number of tracks, all live |
| Interview.MediaStream.StopTracks | src/interview.js:109-111 | every track of the stream is stopped, and there are as many as before |
| Interview.InterviewController.constructor | src/interview.js:6-16 | the page starts not recording, "Ready to record", with no stream, recorder, chunks, analysis or ffmpeg |
| Interview.InterviewController.SetStatus | src/interview.js:7 | the status becomes the given line and is appended to the status history |
| Interview.InterviewController.StartRecording | src/interview.js:18-100 | chunks are reset; recording is on exactly when the camera is granted and the recorder starts; otherwise the camera error shows the thrown message; a granted stream is attached live even when the recorder then fails; the recorder uses the negotiated type |
| Interview.InterviewController.ResetChunks | src/interview.js:20 | the chunks of an earlier recording are forgotten |
| Interview.InterviewController.AttachStream | src/interview.js:23-29 | a fresh live stream with the granted tracks is attached to the video element |
| Interview.InterviewController.CreateRecorder | src/interview.js:31-50 | the recorder is created for the negotiated type unless its constructor throws; recording is on and "Recording..." shows exactly when `start()` succeeds |
| Interview.InterviewController.OnDataAvailable | src/interview.js:52-56 | a present, non-empty chunk is appended to the recording, any other delivery leaves it unchanged, and the page invariant is kept |
| Interview.InterviewController.StopRecording | src/interview.js:102-116 | when a recorder exists and recording is on, the recorder becomes inactive, every track stops, the stream is detached and recording is off; otherwise nothing changes |
| Interview.InterviewController.OnStop | src/interview.js:58-91 | the recording is assembled from the kept chunks; an MP4-family type is uploaded as-is under `interview.mp4`; any other type goes through the conversion branch |
| Interview.InterviewController.ConvertAndUpload | src/interview.js:71-89 | "Converting recording to MP4..." shows first; ffmpeg ends up loaded exactly when it was loaded or imports and loads now; a failure shows the pipeline error and sends nothing; otherwise the MP4 output is uploaded |
| Interview.InterviewController.UploadConverted | src/interview.js:79-89 | converted output is uploaded as `video/mp4` under `interview.mp4`; a conversion error shows `Conversion/Upload error: ` and the message, with nothing sent |
| Interview.InterviewController.EnsureFfmpeg | src/interview.js:118-129 | a loaded ffmpeg is reused with nothing changed; otherwise an import failure reports its error with no status; a successful import shows the loading status and calls `load()` once, and ffmpeg is loaded exactly when that succeeds |
| Interview.InterviewController.UploadBlob | src/interview.js:131-160 | exactly one request with the `file` field is sent; the status goes to "Uploading..." and then the final status; analysis data and one navigation are added only on success |
| Interview.InterviewController.ShowOutcome | src/interview.js:143-159 | success stores the parsed answer unmodified and navigates with it; any failure only reports |
| Interview.InterviewController.ViewResults | src/interview.js:162-166 | the results page is opened, with the stored analysis, exactly when that analysis is truthy |
| Results.ScoreColor | src/results.js:23-27 | green exactly from 0.7, yellow exactly from 0.4 below 0.7, red exactly below 0.4 |
| Results.ScoreBg | src/results.js:29-33 | the same three bands for the background classes |
| Results.ColorAndBackgroundAgree | src/results.js:23-33 | a score's text colour and background always show the same band |
| Results.BandsAreMonotone | src/results.js:23-33 | a higher score never gets a worse band, in either helper |
| Results.GetHighestEmotion | src/results.js:39-51 | the loop with its two accumulators computes the left-to-right fold of strict-greater updates |
| Results.ScanFromSpec | src/results.js:39-51 | the fold's result is at least the start and every value; it is either the start, when nothing beats it, or the earliest entry with the result's value |
| Results.HighestEmotionIsMaximal | src/results.js:39-51 | the dominant emotion's value is at least -1 and at least every emotion's value |
| Results.HighestEmotionDefault | src/results.js:39-51 | with no emotions, or none above -1, the result is the empty name with -1 |
| Results.HighestEmotionIsFirstMaximum | src/results.js:43-48 | when some value exceeds -1, the result is an emotion of the map, and ties go to the earliest entry |
| Results.NumericEntriesSpec | src/results.js:43-48 | the emotions keep the entries' order, names and numeric values, and exist exactly when every entry's value is a number |
| Results.RepeatedKeyEntries | src/results.js:43 | an emotions object `{a: 5, b: 2, a: 0}` has the entries `a` with 0 and then `b` with 2 |
| Results.RepeatedKeyEmotions | src/results.js:43-48 | those entries give the emotions `a` with 0 and `b` with 2 |
| Results.RepeatedEmotionKeyExample | src/results.js:39-53 | with that emotions object the dominant emotion is `b` with 2 |
| Results.ResultsPage | src/results.js:5-19 | "No Results Found" is shown exactly when the navigation carries no truthy analysis data |

## Left out

- The page's asynchrony is left out. Awaited promises, React state batching
  and the one-second delay before navigation are modelled as calls that run
  one after the other.
- Recorder events are not modelled as a queue. `dataavailable` and `stop`
  are separate methods (`OnDataAvailable`, `OnStop`) that a caller invokes
  in order. The browser's own `stop` event is not modelled; `StopRecording`
  only flips the state.
- The ffmpeg internals are left out: `fetchFile`, the virtual file system,
  the command line, and the best-effort `unlink` cleanup. A conversion is one
  function from input bytes to a result.
- The service URL and the multipart encoding are left out. A request is the
  field name, the file and the file name.
- `formatPercentage` (src/results.js:35-37) is left out. It formats
  floating point with `toFixed`.
- All rendering is left out. This includes the fields the dashboard reads
  after the dominant emotion (`coaching_advice`, `transcript_analysis`, the
  recommendation list at src/results.js:186), which can throw at render
  time.
- Scores and emotion values are mathematical reals. IEEE rounding and NaN
  are not modelled.
- JSON objects are ordered lists of pairs, repeated keys included. Reads
  and `Object.entries` apply `JSON.parse`'s rules for repeated keys.
  JavaScript's own key ordering (integer-like keys first) is not modelled.
- Comparisons after JavaScript type coercion are not modelled.
  - `Results.ResultsPage` answers `OutsideModel` for emotions given as a
    string or an array, and for an emotions object with non-numeric values.
- `Interview.InterviewController.StartRecording` requires that recording is
  off. The source secures this only by disabling the Start button
  (src/interview.js:198). A second start while recording is not modelled.
  As in the source, a stream acquired before the recorder fails stays
  attached and live.
- `Interview.InterviewController.OnStop` makes no check for an empty
  recording, because the source makes none.
- App.js (routing) and prompt.js (the question page) are not part of this
  model.
