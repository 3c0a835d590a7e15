/** Sessions driven end to end on a fresh controller, each stating what an
    observer of the replies, the broadcasts and the download sees. */
module BackgroundScenarios {
  import opened Protocol
  import opened Background

  /** Settings with no stored quality (so 1080p) and audio off. */
  const Defaults: Settings := Settings(None, false)

  /** A successful start leaves a running session at zero elapsed time that
      then counts the clock. */
  method StartThenStatus(stored: Settings, streamId: nat, now: int, later: int)
    returns (outcome: StartOutcome, atStart: Status, atLater: Status)
    requires ResolvePreset(stored.quality).Some?
    ensures outcome == Started(Constraints(stored.audioEnabled, ResolvePreset(stored.quality)))
    ensures atStart == Status(true, false, 0)
    ensures atLater == Status(true, false, if now == 0 then 0 else later - now)
  {
    var c := new Controller();
    var outcome0, _, _ := c.StartRecording(Some(stored), Granted(streamId), true, now);
    outcome := outcome0;
    atStart := c.GetStatus(now);
    atLater := c.GetStatus(later);
  }

  /** Pause at `p`, resume at `r`: while paused the duration is frozen at
      `p - t0`; after the resume it is `2p - t0 - r` at every later reading,
      because `pauseTime` keeps the old pause instant. A pause of any length
      makes the reported duration go down. */
  method PauseResumeTimeline(t0: int, p: int, r: int, later: int)
    returns (whilePaused: Status, afterResume: Status)
    requires 0 < t0 <= p <= r
    ensures whilePaused == Status(true, true, p - t0)
    ensures afterResume == Status(true, false, 2 * p - t0 - r)
    ensures r > p ==> afterResume.duration < whilePaused.duration
    ensures afterResume.duration < 0 <==> r - p > p - t0
  {
    var c := new Controller();
    var _, _, _ := c.StartRecording(Some(Defaults), Granted(1), true, t0);
    var paused := c.TogglePause(p);
    whilePaused := c.GetStatus(later);
    var resumed := c.TogglePause(r);
    afterResume := c.GetStatus(later);
  }

  /** A pause longer than the recording before it drives the reported
      duration below zero: start at 1000, pause at 6000, resume at 16000, and
      every later status says -5000. */
  method PauseOutlastsRecording(later: int) returns (afterResume: Status)
    ensures afterResume == Status(true, false, -5000)
  {
    var c := new Controller();
    var _, _, _ := c.StartRecording(Some(Defaults), Granted(1), true, 1000);
    var _ := c.TogglePause(6000);
    var _ := c.TogglePause(16000);
    afterResume := c.GetStatus(later);
  }

  /** Record two chunks with an empty one between them, stop, and save: the
      download holds the non-empty chunks in arrival order under the name
      built from `iso`, and the controller is idle again. */
  method RecordAndSave(first: Chunk, second: Chunk, blankId: nat, iso: string, now: int, downloadOk: bool)
    returns (request: DownloadRequest, afterwards: Status)
    requires first.size > 0 && second.size > 0
    ensures request.blob == Blob([first, second], "video/webm")
    ensures request.filename == FileName(iso) && request.saveAs
    ensures afterwards == IdleStatus
  {
    var c := new Controller();
    var _, _, _ := c.StartRecording(Some(Defaults), Granted(1), true, now);
    c.HandleDataAvailable(first);
    c.HandleDataAvailable(Chunk(blankId, 0));
    c.HandleDataAvailable(second);
    assert c.recordedChunks == [first, second];
    c.StopRecording();
    var request0, _ := c.HandleRecordingStop(iso, downloadOk);
    request := request0;
    afterwards := c.GetStatus(now);
  }

  /** `stopRecording` alone does not end the session: the status still says
      recording, and toggling the stopped recorder changes nothing but still
      broadcasts. */
  method StopKeepsSession(now: int, later: int)
    returns (afterStop: Status, toggled: Option<Status>)
    requires now != 0
    ensures afterStop == Status(true, false, later - now)
    ensures toggled == Some(afterStop)
  {
    var c := new Controller();
    var _, _, _ := c.StartRecording(Some(Defaults), Granted(1), true, now);
    c.StopRecording();
    afterStop := c.GetStatus(later);
    toggled := c.TogglePause(later);
  }

  /** A refused capture is still acknowledged as a success, and the
      controller is left idle. */
  method StartFailureAcknowledged(options: Options, stored: Settings, now: int)
    returns (reply: Option<Response>, sent: Option<Status>, status: Option<Response>)
    ensures reply == Some(Ack(true))
    ensures sent == Some(IdleStatus)
    ensures status == Some(StatusReply(IdleStatus))
  {
    var c := new Controller();
    reply, sent := c.HandleMessage(Protocol.StartRecording(options), Some(stored), Denied, true, now);
    var status0, _ := c.HandleMessage(Protocol.GetStatus, Some(stored), Denied, true, now);
    status := status0;
  }

  /** A quality outside the table fails after the stream was granted: the
      stream is dropped with its tracks still live, and nothing is left of
      the session. */
  method UnknownQualityDropsStream(quality: string, streamId: nat, now: int)
    returns (outcome: StartOutcome, status: Status)
    requires quality !in {"", "720p", "1080p", "4k"}
    ensures outcome == RecorderRefused(Constraints(false, None), Stream(streamId, false))
    ensures status == IdleStatus
  {
    var c := new Controller();
    var outcome0, _, _ := c.StartRecording(Some(Settings(Some(quality), false)), Granted(streamId), true, now);
    outcome := outcome0;
    status := c.GetStatus(now);
  }

  /** A second start while a session runs is not refused: it replaces the
      session, with the new stream and a new start time, and leaves the first
      session's recorder recording on live tracks. */
  method StartWhileActiveReplaces(t1: int, t2: int, later: int)
    returns (stream: Option<Stream>, status: Status, abandoned: Option<Abandoned>)
    requires t2 != 0
    ensures stream == Some(Stream(2, false))
    ensures status == Status(true, false, later - t2)
    ensures abandoned == Some(Abandoned(Recorder(Recording, "video/webm;codecs=vp9", 5_000_000, 1000), Stream(1, false)))
  {
    var c := new Controller();
    var _, _, _ := c.StartRecording(Some(Defaults), Granted(1), true, t1);
    var _, _, left := c.StartRecording(Some(Defaults), Granted(2), true, t2);
    abandoned := left;
    stream := c.recordingStream;
    status := c.GetStatus(later);
  }

  /** A failed start while a session runs ends that session without
      stopping its recorder or its tracks. */
  method FailedRestartEndsSession(t1: int, t2: int)
    returns (status: Status, abandoned: Option<Abandoned>)
    ensures status == IdleStatus
    ensures abandoned == Some(Abandoned(Recorder(Recording, "video/webm;codecs=vp9", 5_000_000, 1000), Stream(1, false)))
  {
    var c := new Controller();
    var _, _, _ := c.StartRecording(Some(Defaults), Granted(1), true, t1);
    var _, _, left := c.StartRecording(Some(Defaults), Granted(2), false, t2);
    abandoned := left;
    status := c.GetStatus(t2);
  }

  /** The start/stop shortcut starts a session, then stops its recorder; the
      pause shortcut does nothing without a session. */
  method ShortcutToggling(now: int)
    returns (idlePause: Option<Status>, started: Option<Status>, stopped: Option<Status>, recorder: Option<Recorder>)
    ensures idlePause == None
    ensures started == Some(Status(true, false, 0))
    ensures stopped == None
    ensures recorder == Some(Recorder(Inactive, "video/webm;codecs=vp9", 5_000_000, 1000))
  {
    var c := new Controller();
    idlePause := c.HandleCommand("pause-resume-recording", Some(Defaults), Granted(1), true, now);
    started := c.HandleCommand("start-stop-recording", Some(Defaults), Granted(1), true, now);
    stopped := c.HandleCommand("start-stop-recording", Some(Defaults), Granted(1), true, now);
    recorder := c.mediaRecorder;
  }

  /** The toggle reply carries no status; the status goes out as a broadcast. */
  method ToggleReplyHasNoStatus(t0: int, p: int)
    returns (reply: Option<Response>, sent: Option<Status>)
    requires t0 != 0
    ensures reply == Some(Ack(true))
    ensures sent == Some(Status(true, true, p - t0))
  {
    var c := new Controller();
    var _, _ := c.HandleMessage(Protocol.StartRecording(Options("4k", true)), Some(Defaults), Granted(1), true, t0);
    reply, sent := c.HandleMessage(Protocol.TogglePause, Some(Defaults), Granted(1), true, p);
  }

  /** A fresh controller reports an idle status and ignores actions it does
      not know. */
  method IdleReplies(action: string, now: int)
    returns (status: Option<Response>, other: Option<Response>, toggled: Option<Status>)
    ensures status == Some(StatusReply(IdleStatus))
    ensures other == None
    ensures toggled == None
  {
    var c := new Controller();
    var status0, _ := c.HandleMessage(Protocol.GetStatus, None, Denied, false, now);
    status := status0;
    var other0, _ := c.HandleMessage(Other(action), None, Denied, false, now);
    other := other0;
    toggled := c.TogglePause(now);
  }
}
