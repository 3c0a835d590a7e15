/** The popup driven through short sequences of events on a fresh view. */
module PopupScenarios {
  import opened Protocol
  import opened Popup

  /** A broadcast snapshot one minute into a running session shows the timer
      as `00:01:00`, with the recording controls. */
  method StatusUpdateShowsTimer(initial: Elements, ms: int) returns (shown: Elements)
    requires 60_000 <= ms < 61_000
    ensures shown.timerText == "00:01:00"
    ensures shown.startDisabled && !shown.stopDisabled && !shown.pauseDisabled
    ensures shown.qualityDisabled && shown.audioDisabled
    ensures shown.pauseLabel == PauseLabel
    ensures shown.statusText == initial.statusText
  {
    var v := new View(initial);
    v.OnMessage(StatusUpdate(Status(true, false, ms)));
    shown := v.dom;
    assert shown.timerText == FormatTime(ms);
    FormatTimeOneMinute(ms);
  }

  /** A poll that finds no session shows the idle controls and `Ready to
      record`. */
  method IdlePoll(initial: Elements, ms: int) returns (shown: Elements)
    requires 0 <= ms < 1_000
    ensures shown.timerText == "00:00:00" && shown.statusText == "Ready to record"
    ensures !shown.startDisabled && shown.stopDisabled && shown.pauseDisabled
    ensures !shown.qualityDisabled && !shown.audioDisabled
  {
    var v := new View(initial);
    var _ := v.UpdateRecordingStatus(Some(Status(false, false, ms)));
    shown := v.dom;
    assert shown.timerText == FormatTime(ms);
    FormatTimeZero(ms);
  }

  /** Stopping a paused session resets the local flag, so the next toggle
      pauses again and offers Resume. */
  method StopThenToggle(initial: Elements, duration: int)
    returns (afterStop: Elements, afterToggle: Elements, paused: bool)
    ensures afterStop.pauseLabel == PauseLabel && afterStop.statusText == "Recording saved"
    ensures afterToggle.pauseLabel == ResumeLabel && afterToggle.statusText == "Recording paused"
    ensures paused
  {
    var v := new View(initial);
    v.UpdateUI(Status(true, true, duration));
    var _ := v.StopRecording(true);
    afterStop := v.dom;
    var _ := v.TogglePause(true);
    afterToggle := v.dom;
    paused := v.isPaused;
  }

  /** A toggle whose send fails changes nothing on screen or in the local
      state. */
  method FailedToggle(initial: Elements, status: Status)
    returns (before: Elements, after: Elements, pausedBefore: bool, pausedAfter: bool)
    ensures before == after && pausedBefore == pausedAfter
  {
    var v := new View(initial);
    v.UpdateUI(status);
    before, pausedBefore := v.dom, v.isPaused;
    var _ := v.TogglePause(false);
    after, pausedAfter := v.dom, v.isPaused;
  }

  /** A successful start followed by a failed stop keeps the recording
      controls and only reports the failure. */
  method StartThenFailedStop(initial: Elements) returns (shown: Elements, sent: Message)
    ensures sent == Protocol.StartRecording(Options(initial.qualityValue, initial.audioChecked))
    ensures shown.startDisabled && !shown.stopDisabled && !shown.pauseDisabled
    ensures shown.statusText == "Failed to stop recording"
  {
    var v := new View(initial);
    sent := v.StartRecording(true);
    var _ := v.StopRecording(false);
    shown := v.dom;
  }
}
