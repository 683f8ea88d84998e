/** The recording-session controller of the interview page: it opens the
    camera, negotiates a recording format, buffers the recorder's chunks,
    and on stop either uploads the recording as it is or converts it to MP4
    first, then stores the analysis the service answers with.

    The browser's services are parameters: what `getUserMedia` resolves to,
    what the MediaRecorder constructor and `start()` do, what the ffmpeg
    module does when imported, loaded and run, and what `fetch` settles to.
    The callback that runs when the recorder stops is modelled as one
    sequential call, `OnStop`, made after `StopRecording`. */
module Interview {
  import opened Media
  import opened JsonValue
  import opened Negotiation
  import opened Upload
  import Mime

  const ReadyStatus: string := "Ready to record"
  const RecordingStatus: string := "Recording..."
  const CameraErrorPrefix: string := "Error accessing camera: "
  const ConvertingStatus: string := "Converting recording to MP4..."
  const LoadingStatus: string := "Loading ffmpeg (for mp4 conversion), this may take a moment..."
  const PipelineErrorPrefix: string := "Conversion/Upload error: "
  const UploadName: string := "interview.mp4"
  const FileField: string := "file"
  const Mp4Type: string := "video/mp4"
  const DefaultMime: string := "video/webm"

  /** A live camera and microphone stream: each of its tracks is live until
      it is stopped. */
  class MediaStream {
    var trackLive: seq<bool>

    constructor (trackCount: nat)
      ensures |trackLive| == trackCount && AllLive()
    {
      trackLive := seq(trackCount, _ => true);
    }

    predicate AllLive()
      reads this
    {
      forall k :: 0 <= k < |trackLive| ==> trackLive[k]
    }

    predicate AllStopped()
      reads this
    {
      forall k :: 0 <= k < |trackLive| ==> !trackLive[k]
    }

    /** Stop every track, one after the other, so the camera turns off. */
    method StopTracks()
      modifies this
      ensures |trackLive| == |old(trackLive)|
      ensures AllStopped()
    {
      var i := 0;
      while i < |trackLive|
        invariant 0 <= i <= |trackLive| == |old(trackLive)|
        invariant forall k :: 0 <= k < i ==> !trackLive[k]
      {
        trackLive := trackLive[i := false];
        i := i + 1;
      }
    }
  }

  /** What `getUserMedia({ video: true, audio: true })` settles to. */
  datatype Acquisition = Granted(trackCount: nat) | Denied(message: string)

  /** What creating the recorder and calling its `start()` do: the
      constructor throws, or it succeeds (the recorder then reports some
      MIME type, possibly empty) and `start()` throws or returns. */
  datatype RecorderSetup =
    | ConstructorThrows(message: string)
    | StartThrows(reportedMime: string, message: string)
    | Started(reportedMime: string)

  /** The recorder held by the page: the type it was asked for, the type it
      reports, and whether it is recording. */
  datatype Recorder = Recorder(requestedMime: string, mimeType: string, active: bool)

  /** The ffmpeg module as the page sees it: whether importing and creating
      it throws, whether `load()` throws, and what a conversion of the input
      bytes gives (the output file's bytes, or the error thrown while
      writing the input, running the command or reading the output). */
  datatype Ffmpeg = Ffmpeg(importError: Option<string>, loadError: Option<string>,
                           convert: seq<byte> -> Result<seq<byte>>)

  /** The MIME type the stop handler works with: the recorder's, or
      `video/webm` when the recorder reports none. */
  function EffectiveMime(reported: string): (m: string)
    ensures reported == "" ==> m == DefaultMime
    ensures reported != "" ==> m == reported
  {
    if reported == "" then DefaultMime else reported
  }

  /** What the conversion step yields, given whether ffmpeg was loaded
      before: a failure to import or to load ends it, otherwise the
      conversion's own result. */
  function Conversion(loaded: bool, ff: Ffmpeg, input: seq<byte>): Result<seq<byte>>
  {
    if !loaded && ff.importError.Some? then Err(ff.importError.value)
    else if !loaded && ff.loadError.Some? then Err(ff.loadError.value)
    else ff.convert(input)
  }

  /** The analysis data after an upload: the parsed answer when the upload
      succeeded, the previous data otherwise. */
  function StoredAnalysis(before: Json, o: FetchOutcome): Json
  {
    match Attempt(o)
    case Ok(j) => j
    case Err(_) => before
  }

  /** The navigations to the results page an upload adds: one, carrying the
      parsed answer, when it succeeded. */
  function NavigationsAfter(o: FetchOutcome): seq<Json>
  {
    match Attempt(o)
    case Ok(j) => [j]
    case Err(_) => []
  }

  class InterviewController {
    var isRecording: bool
    var status: string
    var hasStream: bool
    var analysisData: Json
    /** The video element's `srcObject`. */
    var srcObject: MediaStream?
    /** `mediaRecorderRef.current`. */
    var recorder: Option<Recorder>
    /** `recordedChunksRef.current`. */
    var recordedChunks: seq<Blob>
    /** Whether `ffmpegRef.current` holds an instance. */
    var ffmpegCreated: bool
    /** `ffmpegLoadedRef.current`. */
    var ffmpegLoaded: bool

    /** Every status shown, in order; the last one is `status`. */
    ghost var statusHistory: seq<string>
    /** Every chunk event since the last start, kept or not. */
    ghost var delivered: seq<Option<Blob>>
    /** Every upload request sent. */
    ghost var sent: seq<Request>
    /** Every navigation to the results page, with the data it carried. */
    ghost var navigations: seq<Json>
    /** How many times ffmpeg's `load()` was called, and how many completed. */
    ghost var loadCalls: nat
    ghost var loadsCompleted: nat

    ghost predicate Valid()
      reads this`status, this`statusHistory, this`hasStream, this`srcObject, this`isRecording
      reads this`recorder, this`recordedChunks, this`delivered
      reads this`loadsCompleted, this`ffmpegLoaded, this`ffmpegCreated
    {
      && |statusHistory| > 0 && status == statusHistory[|statusHistory| - 1]
      && (hasStream <==> srcObject != null)
      && (isRecording <==> recorder.Some? && recorder.value.active)
      && (isRecording ==> hasStream)
      && recordedChunks == KeptChunks(delivered)
      && loadsCompleted <= 1
      && (ffmpegLoaded <==> loadsCompleted == 1)
      && (ffmpegLoaded ==> ffmpegCreated)
    }

    /** The page's initial state. */
    constructor ()
      ensures Valid()
      ensures !isRecording && status == ReadyStatus && !hasStream && analysisData == JNull
      ensures srcObject == null && recorder == None && recordedChunks == []
      ensures !ffmpegCreated && !ffmpegLoaded
      ensures statusHistory == [ReadyStatus] && sent == [] && navigations == [] && loadCalls == 0
    {
      isRecording, status, hasStream, analysisData := false, ReadyStatus, false, JNull;
      srcObject, recorder, recordedChunks := null, None, [];
      ffmpegCreated, ffmpegLoaded := false, false;
      statusHistory, delivered, sent, navigations := [ReadyStatus], [], [], [];
      loadCalls, loadsCompleted := 0, 0;
    }

    /** `setStatus`. */
    method SetStatus(s: string)
      modifies this`status, this`statusHistory
      ensures status == s && statusHistory == old(statusHistory) + [s]
      ensures old(Valid()) ==> Valid()
    {
      status := s;
      statusHistory := statusHistory + [s];
    }

    /** `startRecording`. The start button is disabled while recording, which
        is the only thing that keeps a second start out. Every failure,
        whether the camera is refused or the recorder cannot be created or
        started, ends in the camera error message; a stream acquired before
        the failure stays attached and live. */
    method StartRecording(acquire: Acquisition, rt: Runtime, setup: RecorderSetup)
      requires Valid() && !isRecording
      modifies this`recordedChunks, this`delivered, this`srcObject, this`hasStream
      modifies this`recorder, this`isRecording, this`status, this`statusHistory
      ensures Valid()
      ensures recordedChunks == [] && delivered == []
      ensures statusHistory == old(statusHistory) + [status]
      ensures isRecording <==> acquire.Granted? && setup.Started?
      ensures status == (if isRecording then RecordingStatus
                         else CameraErrorPrefix + (if acquire.Denied? then acquire.message else setup.message))
      ensures acquire.Denied? ==> srcObject == old(srcObject) && hasStream == old(hasStream) && recorder == old(recorder)
      ensures acquire.Granted? ==>
                && hasStream && fresh(srcObject)
                && |srcObject.trackLive| == acquire.trackCount && srcObject.AllLive()
                && recorder == (if setup.ConstructorThrows? then old(recorder)
                                else Some(Recorder(NegotiatedType(rt), setup.reportedMime, setup.Started?)))
    {
      ResetChunks();
      match acquire
      case Denied(m) =>
        SetStatus(CameraErrorPrefix + m);
      case Granted(n) =>
        AttachStream(n);
        CreateRecorder(rt, setup);
    }

    /** Forget the chunks of an earlier recording. */
    method ResetChunks()
      requires Valid()
      modifies this`recordedChunks, this`delivered
      ensures Valid() && recordedChunks == [] && delivered == []
    {
      recordedChunks, delivered := [], [];
    }

    /** Show the newly acquired stream in the video element. */
    method AttachStream(trackCount: nat)
      requires Valid()
      modifies this`srcObject, this`hasStream
      ensures Valid()
      ensures hasStream && fresh(srcObject) && |srcObject.trackLive| == trackCount && srcObject.AllLive()
    {
      var stream := new MediaStream(trackCount);
      srcObject := stream;
      hasStream := true;
    }

    /** The part of `startRecording` after the stream is attached: negotiate
        the type, create the recorder for it, start it, and switch recording
        on. */
    method CreateRecorder(rt: Runtime, setup: RecorderSetup)
      requires Valid() && !isRecording && hasStream
      modifies this`recorder, this`isRecording, this`status, this`statusHistory
      ensures Valid()
      ensures statusHistory == old(statusHistory) + [status]
      ensures isRecording <==> setup.Started?
      ensures status == if setup.Started? then RecordingStatus else CameraErrorPrefix + setup.message
      ensures recorder == if setup.ConstructorThrows? then old(recorder)
                          else Some(Recorder(NegotiatedType(rt), setup.reportedMime, setup.Started?))
    {
      var chosen := NegotiateType(rt);
      match setup
      case ConstructorThrows(m) =>
        SetStatus(CameraErrorPrefix + m);
      case StartThrows(reported, m) =>
        recorder := Some(Recorder(chosen, reported, false));
        SetStatus(CameraErrorPrefix + m);
      case Started(reported) =>
        recorder := Some(Recorder(chosen, reported, true));
        isRecording := true;
        SetStatus(RecordingStatus);
    }

    /** The recorder's `dataavailable` handler. */
    method OnDataAvailable(data: Option<Blob>)
      requires Valid() && recorder.Some?
      modifies this`recordedChunks, this`delivered
      ensures Valid()
      ensures delivered == old(delivered) + [data]
      ensures recordedChunks == if Kept(data) then old(recordedChunks) + [data.value] else old(recordedChunks)
    {
      KeptChunksAppend(delivered, data);
      delivered := delivered + [data];
      if data.Some? && |data.value.bytes| > 0 {
        recordedChunks := recordedChunks + [data.value];
      }
    }

    /** `stopRecording`: only when a recorder exists and recording is on,
        stop the recorder, stop every track of the attached stream, detach
        it, and turn recording off. */
    method StopRecording()
      requires Valid()
      modifies this`recorder, this`srcObject, this`isRecording, this`hasStream, srcObject
      ensures Valid()
      ensures !old(recorder.Some? && isRecording) ==>
                unchanged(this) && (old(srcObject) != null ==> unchanged(old(srcObject)))
      ensures old(recorder.Some? && isRecording) ==>
                && !isRecording && !hasStream && srcObject == null
                && recorder == Some(old(recorder).value.(active := false))
                && old(srcObject) != null
                && |old(srcObject).trackLive| == old(|srcObject.trackLive|)
                && old(srcObject).AllStopped()
    {
      if recorder.Some? && isRecording {
        recorder := Some(recorder.value.(active := false));
        var stream := srcObject;
        srcObject := null;
        if stream != null {
          stream.StopTracks();
        }
        isRecording := false;
        hasStream := false;
      }
    }

    /** `ensureFFmpeg`: import, create and load ffmpeg unless it is loaded
        already. The result is the message of the error thrown, if any. */
    method EnsureFfmpeg(ff: Ffmpeg) returns (failure: Option<string>)
      requires Valid()
      modifies this`ffmpegCreated, this`ffmpegLoaded, this`loadCalls, this`loadsCompleted
      modifies this`status, this`statusHistory
      ensures Valid()
      ensures old(ffmpegLoaded) ==> failure == None && unchanged(this)
      ensures !old(ffmpegLoaded) ==>
                && failure == (if ff.importError.Some? then ff.importError else ff.loadError)
                && (ffmpegLoaded <==> failure == None)
                && ffmpegCreated == (old(ffmpegCreated) || ff.importError == None)
                && loadCalls == old(loadCalls) + (if ff.importError.Some? then 0 else 1)
                && statusHistory == old(statusHistory) + (if ff.importError.Some? then [] else [LoadingStatus])
    {
      if ffmpegLoaded {
        return None;
      }
      if ff.importError.Some? {
        return ff.importError;
      }
      ffmpegCreated := true;
      SetStatus(LoadingStatus);
      loadCalls := loadCalls + 1;
      if ff.loadError.Some? {
        return ff.loadError;
      }
      ffmpegLoaded := true;
      loadsCompleted := loadsCompleted + 1;
      return None;
    }

    /** `uploadBlob`: send the file in one multipart POST and turn the answer
        into a status line and, on success, the stored analysis data and a
        navigation to the results page. */
    method UploadBlob(blob: Blob, filename: string, response: FetchOutcome)
      requires Valid()
      modifies this`status, this`statusHistory, this`sent, this`analysisData, this`navigations
      ensures Valid()
      ensures sent == old(sent) + [Request(FileField, blob, filename)]
      ensures statusHistory == old(statusHistory) + [UploadingStatus, FinalStatus(response)]
      ensures analysisData == StoredAnalysis(old(analysisData), response)
      ensures navigations == old(navigations) + NavigationsAfter(response)
    {
      SetStatus(UploadingStatus);
      sent := sent + [Request(FileField, blob, filename)];
      ShowOutcome(response);
    }

    /** The part of `uploadBlob` after the request: an accepted analysis is
        stored and the results page opened, anything else is reported. */
    method ShowOutcome(response: FetchOutcome)
      requires Valid()
      modifies this`status, this`statusHistory, this`analysisData, this`navigations
      ensures Valid()
      ensures statusHistory == old(statusHistory) + [FinalStatus(response)]
      ensures analysisData == StoredAnalysis(old(analysisData), response)
      ensures navigations == old(navigations) + NavigationsAfter(response)
    {
      match Attempt(response)
      case Err(m) =>
        SetStatus(UploadErrorPrefix + m);
      case Ok(json) =>
        SetStatus(CompletedStatus);
        analysisData := json;
        navigations := navigations + [json];
    }

    /** The recorder's `stop` handler: assemble the recording, upload it as
        it is when its type names MP4, QuickTime or MOV, otherwise convert it
        to MP4 first. No check for an empty recording is made. */
    method OnStop(ff: Ffmpeg, response: FetchOutcome)
      requires Valid() && recorder.Some?
      modifies this`status, this`statusHistory, this`sent, this`analysisData, this`navigations
      modifies this`ffmpegCreated, this`ffmpegLoaded, this`loadCalls, this`loadsCompleted
      ensures Valid()
      ensures var mime := EffectiveMime(old(recorder).value.mimeType);
              var blob := MakeBlob(old(recordedChunks), mime);
              if Mime.IsMp4Family(mime) then
                && sent == old(sent) + [Request(FileField, blob, UploadName)]
                && statusHistory == old(statusHistory) + [UploadingStatus, FinalStatus(response)]
                && analysisData == StoredAnalysis(old(analysisData), response)
                && navigations == old(navigations) + NavigationsAfter(response)
                && ffmpegCreated == old(ffmpegCreated) && ffmpegLoaded == old(ffmpegLoaded)
                && loadCalls == old(loadCalls)
              else
                Converted(old(ffmpegLoaded), old(loadCalls), old(statusHistory), old(sent),
                          old(analysisData), old(navigations), blob, ff, response)
    {
      var mime := EffectiveMime(recorder.value.mimeType);
      var blob := MakeBlob(recordedChunks, mime);
      Mime.PassthroughDependsOnMimeOnly(mime);
      if Mime.IsMp4Family(blob.mimeType) || Mime.IsMp4Family(mime) {
        UploadBlob(blob, UploadName, response);
        return;
      }
      ConvertAndUpload(blob, ff, response);
    }

    /** What the conversion branch of the stop handler leaves behind, given
        the state before it: the conversion status is shown first; ffmpeg
        ends up loaded exactly when it was loaded before or this load
        succeeded, and `load()` is not called when it was loaded before; a
        conversion failure shows the pipeline error and sends nothing, while
        a successful conversion sends the MP4 output and ends as an upload
        does. */
    ghost predicate Converted(loaded0: bool, loadCalls0: nat, history0: seq<string>, sent0: seq<Request>,
                              data0: Json, navigations0: seq<Json>,
                              blob: Blob, ff: Ffmpeg, response: FetchOutcome)
      reads this
    {
      var conv := Conversion(loaded0, ff, blob.bytes);
      && |statusHistory| > |history0|
      && statusHistory[|history0|] == ConvertingStatus
      && (ffmpegLoaded <==> loaded0 || (ff.importError == None && ff.loadError == None))
      && (loaded0 ==> loadCalls == loadCalls0)
      && (conv.Ok? ==>
            && sent == sent0 + [Request(FileField, Blob(conv.value, Mp4Type), UploadName)]
            && status == FinalStatus(response)
            && analysisData == StoredAnalysis(data0, response)
            && navigations == navigations0 + NavigationsAfter(response))
      && (conv.Err? ==>
            && sent == sent0
            && status == PipelineErrorPrefix + conv.message
            && analysisData == data0 && navigations == navigations0)
    }

    /** The conversion branch of the stop handler: show that conversion
        started, make sure ffmpeg is loaded, convert, and upload the MP4
        output; any error thrown on the way ends in the pipeline error. */
    method ConvertAndUpload(blob: Blob, ff: Ffmpeg, response: FetchOutcome)
      requires Valid()
      modifies this`status, this`statusHistory, this`sent, this`analysisData, this`navigations
      modifies this`ffmpegCreated, this`ffmpegLoaded, this`loadCalls, this`loadsCompleted
      ensures Valid()
      ensures Converted(old(ffmpegLoaded), old(loadCalls), old(statusHistory), old(sent),
                        old(analysisData), old(navigations), blob, ff, response)
    {
      SetStatus(ConvertingStatus);
      var failure := EnsureFfmpeg(ff);
      var converted := if failure.Some? then Err(failure.value) else ff.convert(blob.bytes);
      UploadConverted(converted, response);
    }

    /** The end of the conversion branch: upload the MP4 output, or report
        the error that stopped the pipeline. */
    method UploadConverted(converted: Result<seq<byte>>, response: FetchOutcome)
      requires Valid()
      modifies this`status, this`statusHistory, this`sent, this`analysisData, this`navigations
      ensures Valid()
      ensures converted.Ok? ==>
                && sent == old(sent) + [Request(FileField, Blob(converted.value, Mp4Type), UploadName)]
                && statusHistory == old(statusHistory) + [UploadingStatus, FinalStatus(response)]
                && analysisData == StoredAnalysis(old(analysisData), response)
                && navigations == old(navigations) + NavigationsAfter(response)
      ensures converted.Err? ==>
                && sent == old(sent)
                && statusHistory == old(statusHistory) + [PipelineErrorPrefix + converted.message]
                && analysisData == old(analysisData) && navigations == old(navigations)
    {
      match converted
      case Err(m) =>
        SetStatus(PipelineErrorPrefix + m);
      case Ok(output) =>
        UploadBlob(Blob(output, Mp4Type), UploadName, response);
    }

    /** `viewResults`: go to the results page only when there is analysis
        data to show. */
    method ViewResults()
      requires Valid()
      modifies this`navigations
      ensures Valid()
      ensures navigations == old(navigations) + (if Truthy(analysisData) then [analysisData] else [])
    {
      if Truthy(analysisData) {
        navigations := navigations + [analysisData];
      }
    }
  }
}
