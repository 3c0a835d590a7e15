/** The background service worker: the recording-session controller, its
    quality presets, the download it requests when a recording stops, and the
    two listeners that dispatch keyboard shortcuts and runtime messages.
    Browser objects are abstract values: a recorder is its state, a stream is
    whether its tracks were stopped, a chunk is its size. Each handler runs as
    one atomic step and takes the clock reading `now` as a parameter. */
module Background {
  import opened Protocol
  import Decimal

  // ---------------------------------------------------------------------------
  // Quality presets

  datatype Preset = Preset(width: nat, height: nat, bitrate: nat)

  const QualityPresets: map<string, Preset> := map[
    "720p" := Preset(1280, 720, 2_500_000),
    "1080p" := Preset(1920, 1080, 5_000_000),
    "4k" := Preset(3840, 2160, 15_000_000)
  ]

  const DefaultQuality: string := "1080p"

  /** `QUALITY_PRESETS[stored || '1080p']`: an absent or empty stored quality
      falls back to 1080p, and a key outside the table gives `undefined`
      (None). */
  function ResolvePreset(quality: Option<string>): (p: Option<Preset>)
    ensures quality == None || quality == Some("") ==> p == Some(Preset(1920, 1080, 5_000_000))
    ensures quality == Some("720p") ==> p == Some(Preset(1280, 720, 2_500_000))
    ensures quality == Some("1080p") ==> p == Some(Preset(1920, 1080, 5_000_000))
    ensures quality == Some("4k") ==> p == Some(Preset(3840, 2160, 15_000_000))
    ensures p.None? <==> quality.Some? && quality.value !in {"", "720p", "1080p", "4k"}
    ensures p.Some? ==> p.value.width * 9 == p.value.height * 16
  {
    var key := if quality == None || quality == Some("") then DefaultQuality else quality.value;
    if key in QualityPresets then Some(QualityPresets[key]) else None
  }

  // ---------------------------------------------------------------------------
  // The browser pieces, as values

  /** The `settings` record in extension storage. */
  datatype Settings = Settings(quality: Option<string>, audioEnabled: bool)

  /** What `getDisplayMedia` does with the request: throws, or grants a stream. */
  datatype Capture = Denied | Granted(streamId: nat)

  /** The constraints passed to `getDisplayMedia`: the audio flag, and for
      video the spread preset (absent when the lookup gave `undefined`);
      `displaySurface` is always 'monitor'. */
  datatype Constraints = Constraints(audio: bool, video: Option<Preset>)

  datatype Stream = Stream(id: nat, tracksStopped: bool)

  datatype RecorderState = Inactive | Recording | Paused

  datatype Recorder = Recorder(state: RecorderState, mimeType: string, videoBitsPerSecond: nat, timesliceMs: nat)

  /** A `dataavailable` payload, known by its size. */
  datatype Chunk = Chunk(id: nat, size: nat)

  datatype Blob = Blob(parts: seq<Chunk>, mimeType: string)

  /** The argument of `chrome.downloads.download`. */
  datatype DownloadRequest = DownloadRequest(blob: Blob, filename: string, saveAs: bool)

  /** How far `startRecording` got. Only the first case is a started session;
      the last two say what was asked of `getDisplayMedia`, and
      `RecorderRefused` carries the stream the error path dropped. */
  datatype StartOutcome =
    | SettingsMissing
    | CaptureRefused(request: Constraints)
    | RecorderRefused(request: Constraints, dropped: Stream)
    | Started(request: Constraints)

  /** The recorder and stream of a session that a new start overwrote or
      nulled without stopping either: the recorder keeps its state and its
      callbacks, the stream its tracks. */
  datatype Abandoned = Abandoned(recorder: Recorder, stream: Stream)

  /** `stream.getTracks().forEach(track => track.stop())`. */
  function StopTracks(stream: Option<Stream>): (stopped: Option<Stream>)
    ensures stopped.Some? <==> stream.Some?
    ensures stream.Some? ==> stopped.value.id == stream.value.id && stopped.value.tracksStopped
  {
    if stream.Some? then Some(stream.value.(tracksStopped := true)) else None
  }

  const RecorderMimeType: string := "video/webm;codecs=vp9"
  const BlobMimeType: string := "video/webm"
  const ChunkIntervalMs: nat := 1000

  /** A start gets through when the settings are readable, the capture is
      granted, the quality names a preset and the recorder can be created and
      started. */
  predicate StartSucceeds(stored: Option<Settings>, capture: Capture, recorderOk: bool) {
    stored.Some? && capture.Granted? && recorderOk && ResolvePreset(stored.value.quality).Some?
  }

  // ---------------------------------------------------------------------------
  // The downloaded file's name

  predicate IsSeparator(c: char) {
    c == ':' || c == '.'
  }

  /** `s.replace(/[:.]/g, '-')`. */
  function ReplaceSeparators(s: string): (r: string)
    ensures |r| == |s|
    ensures forall i :: 0 <= i < |s| ==> r[i] == if IsSeparator(s[i]) then '-' else s[i]
  {
    if s == [] then [] else
    var c := s[|s| - 1];
    ReplaceSeparators(s[..|s| - 1]) + [if IsSeparator(c) then '-' else c]
  }

  const FilePrefix: string := "screen-recording-"
  const FileExtension: string := ".webm"

  /** The download's name for a `toISOString()` timestamp. */
  function FileName(iso: string): (f: string)
    ensures |f| == |FilePrefix| + |iso| + |FileExtension|
    ensures f[..|FilePrefix|] == FilePrefix && f[|f| - |FileExtension|..] == FileExtension
    ensures forall i :: 0 <= i < |iso| ==>
      f[|FilePrefix| + i] == if IsSeparator(iso[i]) then '-' else iso[i]
    ensures forall i :: 0 <= i < |f| ==> (IsSeparator(f[i]) <==> i == |f| - |FileExtension|)
  {
    FilePrefix + ReplaceSeparators(iso) + FileExtension
  }

  /** The shape `YYYY-MM-DDTHH:mm:ss.sssZ` of `Date.prototype.toISOString`. */
  predicate IsIsoTimestamp(s: string) {
    && |s| == 24
    && s[4] == '-' && s[7] == '-' && s[10] == 'T' && s[13] == ':' && s[16] == ':'
    && s[19] == '.' && s[23] == 'Z'
    && forall i ::
         (0 <= i < 24 && i != 4 && i != 7 && i != 10 && i != 13 && i != 16 && i != 19 && i != 23)
         ==> Decimal.IsDigit(s[i])
  }

  /** Recovers the timestamp from a file name: the separators sit at fixed
      places in an ISO timestamp, so they can be put back. */
  function TimestampOfFileName(f: string): Option<string> {
    if |f| != 46 || f[..17] != FilePrefix || f[41..] != FileExtension then None
    else
      var t := f[17..41];
      Some(t[..13] + ":" + t[14..16] + ":" + t[17..19] + "." + t[20..])
  }

  /** The file name loses nothing of a well-formed timestamp. */
  lemma FileNameRoundTrip(iso: string)
    requires IsIsoTimestamp(iso)
    ensures TimestampOfFileName(FileName(iso)) == Some(iso)
  {
    var f := FileName(iso);
    var t := f[17..41];
    assert t == ReplaceSeparators(iso);
    var back := t[..13] + ":" + t[14..16] + ":" + t[17..19] + "." + t[20..];
    forall i | 0 <= i < 24
      ensures back[i] == iso[i]
    {
      if i < 13 {
        assert back[i] == t[i];
      } else if i == 13 || i == 16 || i == 19 {
      } else if i < 16 {
        assert back[i] == t[i];
      } else if i < 19 {
        assert back[i] == t[i];
      } else {
        assert back[i] == t[i];
      }
    }
    assert back == iso;
    assert |f| == 46 && f[..17] == FilePrefix && f[41..] == FileExtension;
  }

  /** A concrete name: the prefix is `screen-recording-`, not `recording-`,
      and the `T` and `Z` of the timestamp stay. */
  lemma FileNameExample()
    ensures FileName("2024-01-15T10:30:45.123Z") == "screen-recording-2024-01-15T10-30-45-123Z.webm"
    ensures FileName("2024-01-15T10:30:45.123Z")[..10] != "recording-"
  {
    ReplaceSeparatorsExample();
    JoinExample();
    assert FileName("2024-01-15T10:30:45.123Z")[0] == 's';
  }

  lemma JoinExample()
    ensures "screen-recording-" + "2024-01-15T10-30-45-123Z" + ".webm" == "screen-recording-2024-01-15T10-30-45-123Z.webm"
  {
  }

  lemma ReplaceSeparatorsExample()
    ensures ReplaceSeparators("2024-01-15T10:30:45.123Z") == "2024-01-15T10-30-45-123Z"
  {
    var iso := "2024-01-15T10:30:45.123Z";
    var r := ReplaceSeparators(iso);
    forall i | 0 <= i < 24 ensures r[i] == "2024-01-15T10-30-45-123Z"[i] {
      assert r[i] == if IsSeparator(iso[i]) then '-' else iso[i];
    }
  }

  // ---------------------------------------------------------------------------
  // The session controller

  /** The seven module-level variables of the service worker. `activeRecording`
      is `null` or `true` in the source. */
  class Controller {
    var activeRecording: bool
    var recordingStream: Option<Stream>
    var mediaRecorder: Option<Recorder>
    var recordedChunks: seq<Chunk>
    var startTime: int
    var pauseTime: int
    var isPaused: bool

    /** The values `cleanup` assigns, which are also the initial ones. */
    predicate IsReset()
      reads this
    {
      && !activeRecording && recordingStream == None && mediaRecorder == None
      && recordedChunks == [] && startTime == 0 && pauseTime == 0 && !isPaused
    }

    /** What every handler keeps: a session holds a recorder and a stream
        exactly when it is active; a recorder that has not stopped runs on live
        tracks and `isPaused` mirrors it; no session means clear timers. */
    predicate Valid()
      reads this
    {
      && (activeRecording <==> mediaRecorder.Some?)
      && (activeRecording <==> recordingStream.Some?)
      && (mediaRecorder.Some? && mediaRecorder.value.state != Inactive ==>
            && isPaused == (mediaRecorder.value.state == Paused)
            && !recordingStream.value.tracksStopped)
      && (!activeRecording ==> startTime == 0 && pauseTime == 0 && !isPaused)
    }

    /** A recorder that `stopRecording` acts on. */
    predicate Stoppable()
      reads this
    {
      mediaRecorder.Some? && mediaRecorder.value.state != Inactive
    }

    constructor ()
      ensures Valid() && IsReset()
    {
      activeRecording, recordingStream, mediaRecorder := false, None, None;
      recordedChunks, startTime, pauseTime, isPaused := [], 0, 0, false;
    }

    /** `getRecordingDuration` at clock reading `now`. While not paused it
        subtracts `now - pauseTime` whenever a pause has ever happened, so
        after a resume the result no longer depends on `now`. */
    function Duration(now: int): (d: int)
      reads this
      ensures startTime == 0 ==> d == 0
      ensures startTime != 0 && isPaused ==> d == pauseTime - startTime
      ensures startTime != 0 && !isPaused && pauseTime == 0 ==> d == now - startTime
      ensures startTime != 0 && !isPaused && pauseTime != 0 ==> d == pauseTime - startTime
    {
      if startTime == 0 then 0
      else
        var pauseDuration := if pauseTime != 0 then now - pauseTime else 0;
        if isPaused then pauseTime - startTime else now - startTime - pauseDuration
    }

    /** The snapshot sent for GET_STATUS and by `broadcastStatus`. */
    function GetStatus(now: int): (s: Status)
      reads this
      ensures s.isRecording == activeRecording && s.isPaused == isPaused
      ensures IsReset() ==> s == IdleStatus
    {
      Status(activeRecording, isPaused, Duration(now))
    }

    /** The state a start leaves: a fresh session when it succeeds, else the
        reset state of `cleanup`. */
    predicate StartedFrom(stored: Option<Settings>, capture: Capture, recorderOk: bool, now: int)
      reads this
    {
      if StartSucceeds(stored, capture, recorderOk) then
        && activeRecording
        && recordingStream == Some(Stream(capture.streamId, false))
        && mediaRecorder == Some(Recorder(Recording, RecorderMimeType,
                                          ResolvePreset(stored.value.quality).value.bitrate, ChunkIntervalMs))
        && recordedChunks == [] && startTime == now && pauseTime == 0 && !isPaused
      else
        IsReset()
    }

    /** What `stopRecording` does: stop a running or paused recorder and every
        track, and touch nothing else. */
    twostate predicate StoppedFrom()
      reads this
    {
      if old(Stoppable()) then
        && mediaRecorder == Some(old(mediaRecorder).value.(state := Inactive))
        && recordingStream == StopTracks(old(recordingStream))
        && activeRecording == old(activeRecording) && recordedChunks == old(recordedChunks)
        && startTime == old(startTime) && pauseTime == old(pauseTime) && isPaused == old(isPaused)
      else
        unchanged(this)
    }

    /** What `togglePause` does at `now`. */
    twostate predicate ToggledFrom(now: int)
      reads this
    {
      && activeRecording == old(activeRecording) && recordingStream == old(recordingStream)
      && recordedChunks == old(recordedChunks)
      && if old(mediaRecorder).None? || old(mediaRecorder).value.state == Inactive then
           unchanged(this)
         else if old(mediaRecorder).value.state == Recording then
           && mediaRecorder == Some(old(mediaRecorder).value.(state := Paused))
           && startTime == old(startTime) && pauseTime == now && isPaused
         else
           && mediaRecorder == Some(old(mediaRecorder).value.(state := Recording))
           && startTime == old(startTime) + (now - old(pauseTime))
           && pauseTime == old(pauseTime) && !isPaused
    }

    /** `cleanup`: assigns a constant to every field, so running it twice
        leaves what running it once leaves. Returns the broadcast snapshot. */
    method Cleanup() returns (sent: Status)
      modifies this
      ensures Valid() && IsReset()
      ensures sent == IdleStatus
    {
      activeRecording := false;
      recordingStream := None;
      mediaRecorder := None;
      recordedChunks := [];
      startTime := 0;
      pauseTime := 0;
      isPaused := false;
      sent := GetStatus(0);
    }

    /** `startRecording`: its `options` argument is never read, so it is not a
        parameter here; the quality and audio flag come from the stored settings. A session already running is not guarded
        against: success replaces it and failure resets it. `sent` is the
        broadcast snapshot. */
    method StartRecording(stored: Option<Settings>, capture: Capture, recorderOk: bool, now: int)
      returns (outcome: StartOutcome, sent: Status, abandoned: Option<Abandoned>)
      requires Valid()
      modifies this
      ensures Valid() && StartedFrom(stored, capture, recorderOk, now)
      ensures outcome.Started? <==> StartSucceeds(stored, capture, recorderOk)
      ensures stored.None? <==> outcome == SettingsMissing
      ensures stored.Some? ==>
        outcome.request == Constraints(stored.value.audioEnabled, ResolvePreset(stored.value.quality))
      ensures stored.Some? && capture.Denied? ==> outcome.CaptureRefused?
      ensures stored.Some? && capture.Granted? && !StartSucceeds(stored, capture, recorderOk) ==> outcome.RecorderRefused?
      ensures outcome.RecorderRefused? ==> capture.Granted? && outcome.dropped == Stream(capture.streamId, false)
      ensures sent == GetStatus(now)
      ensures abandoned ==
        if old(activeRecording) then Some(Abandoned(old(mediaRecorder).value, old(recordingStream).value)) else None
    {
      abandoned := if activeRecording then Some(Abandoned(mediaRecorder.value, recordingStream.value)) else None;
      if stored.None? {
        outcome := SettingsMissing;
        sent := Cleanup();
        return;
      }
      var preset := ResolvePreset(stored.value.quality);
      var request := Constraints(stored.value.audioEnabled, preset);
      if capture.Denied? {
        outcome := CaptureRefused(request);
        sent := Cleanup();
        return;
      }
      var stream := Stream(capture.streamId, false);
      recordingStream := Some(stream);
      if preset.None? || !recorderOk {
        outcome := RecorderRefused(request, stream);
        sent := Cleanup();
        return;
      }
      mediaRecorder := Some(Recorder(Inactive, RecorderMimeType, preset.value.bitrate, 0));
      recordedChunks := [];
      startTime := now;
      pauseTime := 0;
      isPaused := false;
      activeRecording := true;
      mediaRecorder := Some(mediaRecorder.value.(state := Recording, timesliceMs := ChunkIntervalMs));
      outcome := Started(request);
      sent := GetStatus(now);
    }

    /** `stopRecording`: only asks the recorder and the tracks to stop; the
        session is torn down later, by `HandleRecordingStop`. */
    method StopRecording()
      requires Valid()
      modifies this
      ensures Valid() && StoppedFrom()
    {
      if mediaRecorder.Some? && mediaRecorder.value.state != Inactive {
        mediaRecorder := Some(mediaRecorder.value.(state := Inactive));
        recordingStream := StopTracks(recordingStream);
      }
    }

    /** `togglePause` at `now`. Without a recorder it returns before
        broadcasting; otherwise it broadcasts even when nothing changed. */
    method TogglePause(now: int) returns (sent: Option<Status>)
      requires Valid()
      modifies this
      ensures Valid() && ToggledFrom(now)
      ensures sent == if old(mediaRecorder).None? then None else Some(GetStatus(now))
    {
      if mediaRecorder.None? {
        return None;
      }
      if mediaRecorder.value.state == Recording {
        mediaRecorder := Some(mediaRecorder.value.(state := Paused));
        pauseTime := now;
        isPaused := true;
      } else if mediaRecorder.value.state == Paused {
        mediaRecorder := Some(mediaRecorder.value.(state := Recording));
        startTime := startTime + (now - pauseTime);
        isPaused := false;
      }
      sent := Some(GetStatus(now));
    }

    /** `handleDataAvailable`: keeps a non-empty chunk after the earlier ones. */
    method HandleDataAvailable(chunk: Chunk)
      requires Valid()
      modifies this`recordedChunks
      ensures Valid()
      ensures recordedChunks == old(recordedChunks) + if chunk.size > 0 then [chunk] else []
    {
      if chunk.size > 0 {
        recordedChunks := recordedChunks + [chunk];
      }
    }

    /** `handleRecordingStop`: the download holds the chunks in arrival order
        under a name built from `iso`; the session is torn down whether or not
        the download succeeded. */
    method HandleRecordingStop(iso: string, downloadOk: bool) returns (request: DownloadRequest, sent: Status)
      modifies this
      ensures request == DownloadRequest(Blob(old(recordedChunks), BlobMimeType), FileName(iso), true)
      ensures Valid() && IsReset()
      ensures sent == IdleStatus
    {
      var blob := Blob(recordedChunks, BlobMimeType);
      request := DownloadRequest(blob, FileName(iso), true);
      sent := Cleanup();
    }

    /** The `runtime.onMessage` listener. Every start, stop and toggle is
        acknowledged with `{success: true}`, whatever happened; an action it
        does not know gets no reply. */
    method HandleMessage(message: Message, stored: Option<Settings>, capture: Capture, recorderOk: bool, now: int)
      returns (reply: Option<Response>, sent: Option<Status>)
      requires Valid()
      modifies this
      ensures Valid()
      ensures message.StartRecording? ==>
        StartedFrom(stored, capture, recorderOk, now) && reply == Some(Ack(true)) && sent == Some(GetStatus(now))
      ensures message.StopRecording? ==> StoppedFrom() && reply == Some(Ack(true)) && sent == None
      ensures message.TogglePause? ==>
        && ToggledFrom(now) && reply == Some(Ack(true))
        && sent == if old(mediaRecorder).None? then None else Some(GetStatus(now))
      ensures message.GetStatus? ==> unchanged(this) && reply == Some(StatusReply(GetStatus(now))) && sent == None
      ensures message.StatusUpdate? || message.Other? ==> unchanged(this) && reply == None && sent == None
    {
      match message
      case StartRecording(_) =>
        var _, status, _ := StartRecording(stored, capture, recorderOk, now);
        reply, sent := Some(Ack(true)), Some(status);
      case StopRecording =>
        StopRecording();
        reply, sent := Some(Ack(true)), None;
      case TogglePause =>
        sent := TogglePause(now);
        reply := Some(Ack(true));
      case GetStatus =>
        reply, sent := Some(StatusReply(GetStatus(now))), None;
      case _ =>
        reply, sent := None, None;
    }

    /** The `commands.onCommand` listener for the two keyboard shortcuts. */
    method HandleCommand(command: string, stored: Option<Settings>, capture: Capture, recorderOk: bool, now: int)
      returns (sent: Option<Status>)
      requires Valid()
      modifies this
      ensures Valid()
      ensures command == "start-stop-recording" && old(activeRecording) ==> StoppedFrom() && sent == None
      ensures command == "start-stop-recording" && !old(activeRecording) ==>
        StartedFrom(stored, capture, recorderOk, now) && sent == Some(GetStatus(now))
      ensures command == "pause-resume-recording" && old(activeRecording) ==>
        ToggledFrom(now) && sent == Some(GetStatus(now))
      ensures command == "pause-resume-recording" && !old(activeRecording) ==> unchanged(this) && sent == None
      ensures command != "start-stop-recording" && command != "pause-resume-recording" ==>
        unchanged(this) && sent == None
    {
      if command == "start-stop-recording" {
        if activeRecording {
          StopRecording();
          sent := None;
        } else {
          var _, status, _ := StartRecording(stored, capture, recorderOk, now);
          sent := Some(status);
        }
      } else if command == "pause-resume-recording" && activeRecording {
        sent := TogglePause(now);
      } else {
        sent := None;
      }
    }
  }
}
