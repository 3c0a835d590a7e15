/** The popup: the timer formatting and the mapping of a status snapshot onto
    the controls. The DOM elements are one record of `disabled` flags and
    text contents; the popup's module variables are the fields of `View`. */
module Popup {
  import opened Protocol
  import opened Decimal

  // ---------------------------------------------------------------------------
  // formatTime

  /** JavaScript's `a % b` for a positive divisor: the remainder has the sign
      of the dividend. (`Math.floor(a / b)` for a positive divisor is Dafny's
      `a / b`.) */
  function JsRem(a: int, b: int): (r: int)
    requires b > 0
    ensures a >= 0 ==> r == a % b
    ensures a < 0 ==> -b < r <= 0
  {
    if a >= 0 then a % b else -((-a) % b)
  }

  /** `num.toString().padStart(2, '0')`: at least two characters, exactly
      two for a number below 100. (`TimeFieldReadsBack` gives the digits and
      their value.) */
  function TimeField(n: int): (f: string)
  {
    PadStart(IntToString(n), 2, '0')
  }

  /** `formatTime(ms)`: whole hours, minutes and seconds joined by colons.
      For a duration `ms >= 0` every field is zero-padded to at least two
      digits with minutes and seconds below 60, so the reading parses back
      as the whole seconds of `ms`; a negative duration prints minus signs
      instead (`FormatTimeMinusFiveSeconds`). */
  function FormatTime(ms: int): (r: string)
    ensures ms >= 0 ==> ParseClock(r) == Some(ms / 1000)
  {
    var seconds := ms / 1000;
    var hh := seconds / 3600;
    var mm := JsRem(seconds, 3600) / 60;
    var ss := JsRem(seconds, 60);
    var text := TimeField(hh) + ":" + TimeField(mm) + ":" + TimeField(ss);
    if ms < 0 then text
    else
      ClockArithmetic(seconds);
      ParseFields(hh, mm, ss, seconds);
      text
  }

  /** The whole seconds an `hh:mm:ss` reading shows: at least two hour digits,
      then two minute digits and two second digits, each below 60. */
  function ParseClock(s: string): Option<nat> {
    if |s| < 8 || s[|s| - 6] != ':' || s[|s| - 3] != ':' then None
    else ClockValue(s[..|s| - 6], s[|s| - 5..|s| - 3], s[|s| - 2..])
  }

  /** The seconds that hour, minute and second fields stand for. */
  function ClockValue(h: string, m: string, sec: string): Option<nat> {
    if !(AllDigits(h) && AllDigits(m) && AllDigits(sec)) then None
    else if ValueOf(m) >= 60 || ValueOf(sec) >= 60 then None
    else Some(ValueOf(h) * 3600 + ValueOf(m) * 60 + ValueOf(sec))
  }

  /** Splitting whole seconds into hours, minutes below 60 and seconds below
      60 loses nothing. */
  lemma ClockArithmetic(t: nat)
    ensures (t % 3600) / 60 < 60 && t % 60 < 60
    ensures (t / 3600) * 3600 + ((t % 3600) / 60) * 60 + t % 60 == t
  {
    var q, r := t / 3600, t % 3600;
    var a, b := r / 60, r % 60;
    assert t == 3600 * q + r && 0 <= r < 3600;
    assert r == 60 * a + b && 0 <= b < 60 && a < 60;
    assert t == 60 * (60 * q + a) + b;
    assert t % 60 == b;
  }

  /** `ParseClock` reads the fields around the last two colons. */
  lemma ParseClockSplits(h: string, m: string, sec: string)
    requires |h| >= 2 && |m| == 2 && |sec| == 2
    ensures ParseClock(h + ":" + m + ":" + sec) == ClockValue(h, m, sec)
  {
    var s := h + ":" + m + ":" + sec;
    assert s[|s| - 6] == ':' && s[|s| - 3] == ':';
    assert s[..|s| - 6] == h;
    assert s[|s| - 5..|s| - 3] == m;
    assert s[|s| - 2..] == sec;
  }

  /** The three fields `formatTime` computes from whole seconds `t >= 0`. */
  lemma FormatTimeFields(ms: int)
    requires ms >= 0
    ensures var t := ms / 1000;
      FormatTime(ms) == TimeField(t / 3600) + ":" + TimeField((t % 3600) / 60) + ":" + TimeField(t % 60)
  {
    var t := ms / 1000;
    assert JsRem(t, 3600) == t % 3600 && JsRem(t, 60) == t % 60;
  }

  /** `formatTime` of a duration given with its whole seconds split up. */
  lemma FormatTimeOf(ms: int, t: int, hh: int, mm: int, ss: int)
    requires t == ms / 1000 && hh == t / 3600 && mm == JsRem(t, 3600) / 60 && ss == JsRem(t, 60)
    ensures FormatTime(ms) == TimeField(hh) + ":" + TimeField(mm) + ":" + TimeField(ss)
  {
  }

  /** A field below 100 is written with exactly two digits, and reads back. */
  lemma TimeFieldReadsBack(n: nat)
    ensures var f := TimeField(n); AllDigits(f) && |f| >= 2 && ValueOf(f) == n
    ensures n < 100 ==> |TimeField(n)| == 2
  {
    assert TimeField(n) == PadStart(NatToString(n), 2, '0');
    PaddedValue(n, 2);
  }

  /** Fields in range read back as the seconds they stand for. */
  lemma ClockValueOfFields(h: string, m: string, sec: string, hh: nat, mm: nat, ss: nat, t: nat)
    requires AllDigits(h) && AllDigits(m) && AllDigits(sec)
    requires ValueOf(h) == hh && ValueOf(m) == mm && ValueOf(sec) == ss && mm < 60 && ss < 60
    requires t == hh * 3600 + mm * 60 + ss
    ensures ClockValue(h, m, sec) == Some(t)
  {
  }

  /** Three fields in range, written and read back. */
  lemma ParseFields(hh: nat, mm: nat, ss: nat, t: nat)
    requires mm < 60 && ss < 60 && t == hh * 3600 + mm * 60 + ss
    ensures ParseClock(TimeField(hh) + ":" + TimeField(mm) + ":" + TimeField(ss)) == Some(t)
  {
    var h, m, sec := TimeField(hh), TimeField(mm), TimeField(ss);
    TimeFieldReadsBack(hh);
    TimeFieldReadsBack(mm);
    TimeFieldReadsBack(ss);
    ParseClockSplits(h, m, sec);
    ClockValueOfFields(h, m, sec, hh, mm, ss, t);
  }

  /** Two durations in different seconds never show the same reading. */
  lemma FormatTimeDistinguishesSeconds(ms1: int, ms2: int)
    requires ms1 >= 0 && ms2 >= 0 && ms1 / 1000 != ms2 / 1000
    ensures FormatTime(ms1) != FormatTime(ms2)
  {
  }

  lemma TimeFieldOneDigit(n: nat)
    requires n < 10
    ensures TimeField(n) == ['0', DigitChar(n)]
  {
    assert IntToString(n) == [DigitChar(n)];
  }

  lemma TimeFieldTwoDigits(n: nat)
    requires 10 <= n < 100
    ensures TimeField(n) == [DigitChar(n / 10), DigitChar(n % 10)]
  {
    assert IntToString(n) == NatToString(n / 10) + [DigitChar(n % 10)];
  }

  /** Readings the sources expect, each for every duration in the second it
      names. There are always three fields: one minute shows as `00:01:00`
      and five seconds as `00:00:05`. */
  lemma FormatTimeZero(ms: int)
    requires 0 <= ms < 1_000
    ensures FormatTime(ms) == "00:00:00"
  {
    assert ms / 1000 == 0;
    FormatTimeOf(ms, 0, 0, 0, 0);
    assert TimeField(0) == "00" by { TimeFieldOneDigit(0); }
  }

  lemma FormatTimeNinetyMinutes(ms: int)
    requires 5_400_000 <= ms < 5_401_000
    ensures FormatTime(ms) == "01:30:00"
  {
    assert ms / 1000 == 5400;
    FormatTimeOf(ms, 5400, 1, 30, 0);
    assert TimeField(0) == "00" by { TimeFieldOneDigit(0); }
    assert TimeField(1) == "01" by { TimeFieldOneDigit(1); }
    assert TimeField(30) == "30" by { TimeFieldTwoDigits(30); }
  }

  lemma FormatTimeOneMinute(ms: int)
    requires 60_000 <= ms < 61_000
    ensures FormatTime(ms) == "00:01:00"
  {
    assert ms / 1000 == 60;
    FormatTimeOf(ms, 60, 0, 1, 0);
    assert TimeField(0) == "00" by { TimeFieldOneDigit(0); }
    assert TimeField(1) == "01" by { TimeFieldOneDigit(1); }
  }

  lemma FormatTimeFiveSeconds(ms: int)
    requires 5_000 <= ms < 6_000
    ensures FormatTime(ms) == "00:00:05"
  {
    assert ms / 1000 == 5;
    FormatTimeOf(ms, 5, 0, 0, 5);
    assert TimeField(0) == "00" by { TimeFieldOneDigit(0); }
    assert TimeField(5) == "05" by { TimeFieldOneDigit(5); }
  }

  /** A negative duration prints minus signs: everything in the second
      before zero shows as `-1:-1:-1`. */
  lemma FormatTimeNegative(ms: int)
    requires -1_000 <= ms < 0
    ensures FormatTime(ms) == "-1:-1:-1"
  {
    assert ms / 1000 == -1;
    assert JsRem(-1, 3600) / 60 == -1 && JsRem(-1, 60) == -1;
    FormatTimeOf(ms, -1, -1, -1, -1);
    TimeFieldNegativeDigit(-1);
  }

  /** Five seconds below zero shows `-1:-1:-5`: the hours and minutes floor to
      -1 while the seconds keep the sign of the truncating remainder. */
  lemma FormatTimeMinusFiveSeconds(ms: int)
    requires -5_000 <= ms < -4_000
    ensures FormatTime(ms) == "-1:-1:-5"
  {
    assert ms / 1000 == -5;
    assert JsRem(-5, 3600) / 60 == -1 && JsRem(-5, 60) == -5;
    FormatTimeOf(ms, -5, -1, -1, -5);
    TimeFieldNegativeDigit(-1);
    TimeFieldNegativeDigit(-5);
  }

  /** A negative field of one digit is its minus sign and the digit, with no
      padding. */
  lemma TimeFieldNegativeDigit(n: int)
    requires -10 < n < 0
    ensures TimeField(n) == ['-', DigitChar(-n)]
  {
    assert IntToString(n) == ['-', DigitChar(-n)];
  }

  // ---------------------------------------------------------------------------
  // The view

  /** The controls: the five `disabled` flags, the pause button's label, the
      timer and status texts, and the quality selector's and audio toggle's
      current values. */
  datatype Elements = Elements(
    startDisabled: bool, stopDisabled: bool, pauseDisabled: bool,
    qualityDisabled: bool, audioDisabled: bool,
    pauseLabel: string, timerText: string, statusText: string,
    qualityValue: string, audioChecked: bool)

  const PauseLabel: string := "\U{23F8} Pause"
  const ResumeLabel: string := "\U{25B6} Resume"

  class View {
    var isRecording: bool
    var isPaused: bool
    var dom: Elements

    /** The buttons and settings controls as `updateButtonStates(recording, _)`
        leaves them: start and stop complementary, the settings locked while
        recording. */
    predicate ShowsRecording(recording: bool)
      reads this
    {
      && dom.startDisabled == recording && dom.stopDisabled == !recording
      && dom.qualityDisabled == recording && dom.audioDisabled == recording
    }

    /** The view of a snapshot that `updateUI` leaves: the local flags copied,
        the controls in the recording or idle state with pause enabled only
        while recording, the pause label offering the opposite of the paused
        flag, and the timer showing the duration. */
    predicate Shows(status: Status)
      reads this
    {
      && isRecording == status.isRecording && isPaused == status.isPaused
      && ShowsRecording(status.isRecording) && dom.pauseDisabled == !status.isRecording
      && dom.pauseLabel == (if status.isPaused then ResumeLabel else PauseLabel)
      && dom.timerText == FormatTime(status.duration)
    }

    constructor (initial: Elements)
      ensures !isRecording && !isPaused && dom == initial
    {
      isRecording, isPaused, dom := false, false, initial;
    }

    /** `updateButtonStates(recording, stopped)`. */
    method UpdateButtonStates(recording: bool, stopped: bool)
      modifies this
      ensures ShowsRecording(recording) && dom.startDisabled != dom.stopDisabled
      ensures dom.pauseDisabled == (!recording || stopped)
      ensures dom.pauseLabel == if stopped then PauseLabel else old(dom.pauseLabel)
      ensures isPaused == (old(isPaused) && !stopped) && isRecording == old(isRecording)
      ensures dom.timerText == old(dom.timerText) && dom.statusText == old(dom.statusText)
      ensures dom.qualityValue == old(dom.qualityValue) && dom.audioChecked == old(dom.audioChecked)
    {
      dom := dom.(startDisabled := recording, stopDisabled := !recording,
                  pauseDisabled := !recording || stopped,
                  qualityDisabled := recording, audioDisabled := recording);
      if stopped {
        dom := dom.(pauseLabel := PauseLabel);
        isPaused := false;
      }
    }

    /** `updatePauseButton`: the label offers the opposite of the local state. */
    method UpdatePauseButton()
      modifies this`dom
      ensures dom == old(dom).(pauseLabel := if isPaused then ResumeLabel else PauseLabel)
    {
      dom := dom.(pauseLabel := if isPaused then ResumeLabel else PauseLabel);
    }

    /** `updateStatus(message)`. */
    method UpdateStatus(message: string)
      modifies this`dom
      ensures dom == old(dom).(statusText := message)
    {
      dom := dom.(statusText := message);
    }

    /** `updateTimer(duration)`. */
    method UpdateTimer(duration: int)
      modifies this`dom
      ensures dom == old(dom).(timerText := FormatTime(duration))
    {
      dom := dom.(timerText := FormatTime(duration));
    }

    /** `updateUI(status)`: the view follows the snapshot; the status text is
        touched only when not recording. */
    method UpdateUI(status: Status)
      modifies this
      ensures Shows(status)
      ensures dom.statusText == if status.isRecording then old(dom.statusText) else "Ready to record"
      ensures dom.qualityValue == old(dom.qualityValue) && dom.audioChecked == old(dom.audioChecked)
    {
      isRecording := status.isRecording;
      isPaused := status.isPaused;
      UpdateButtonStates(isRecording, false);
      UpdatePauseButton();
      UpdateTimer(status.duration);
      if !isRecording {
        UpdateStatus("Ready to record");
      }
    }

    /** `startRecording`: sends the selector's options; `delivered` says
        whether `sendMessage` resolved. On failure only the status text
        changes. */
    method StartRecording(delivered: bool) returns (message: Message)
      modifies this
      ensures message == Protocol.StartRecording(Options(old(dom.qualityValue), old(dom.audioChecked)))
      ensures isRecording == old(isRecording)
      ensures delivered ==>
        && ShowsRecording(true) && !dom.pauseDisabled && isPaused == old(isPaused)
        && dom == old(dom).(startDisabled := true, stopDisabled := false, pauseDisabled := false,
                            qualityDisabled := true, audioDisabled := true, statusText := "Recording started")
      ensures !delivered ==>
        isPaused == old(isPaused) && dom == old(dom).(statusText := "Failed to start recording")
    {
      message := Protocol.StartRecording(Options(dom.qualityValue, dom.audioChecked));
      if delivered {
        UpdateButtonStates(true, false);
        UpdateStatus("Recording started");
      } else {
        UpdateStatus("Failed to start recording");
      }
    }

    /** `stopRecording`: on success the controls return to idle and the pause
        button to its unpaused label. */
    method StopRecording(delivered: bool) returns (message: Message)
      modifies this
      ensures message == Protocol.StopRecording
      ensures isRecording == old(isRecording)
      ensures delivered ==>
        && ShowsRecording(false) && dom.pauseDisabled && !isPaused
        && dom == old(dom).(startDisabled := false, stopDisabled := true, pauseDisabled := true,
                            qualityDisabled := false, audioDisabled := false,
                            pauseLabel := PauseLabel, statusText := "Recording saved")
      ensures !delivered ==>
        isPaused == old(isPaused) && dom == old(dom).(statusText := "Failed to stop recording")
    {
      message := Protocol.StopRecording;
      if delivered {
        UpdateButtonStates(false, true);
        UpdateStatus("Recording saved");
      } else {
        UpdateStatus("Failed to stop recording");
      }
    }

    /** `togglePause`: the local flag flips only once the request was
        delivered; a failed send changes nothing. */
    method TogglePause(delivered: bool) returns (message: Message)
      modifies this
      ensures message == Protocol.TogglePause
      ensures isRecording == old(isRecording)
      ensures delivered ==>
        && isPaused == !old(isPaused)
        && dom == old(dom).(pauseLabel := if isPaused then ResumeLabel else PauseLabel,
                            statusText := if isPaused then "Recording paused" else "Recording resumed")
      ensures !delivered ==> isPaused == old(isPaused) && dom == old(dom)
    {
      message := Protocol.TogglePause;
      if delivered {
        isPaused := !isPaused;
        UpdatePauseButton();
        UpdateStatus(if isPaused then "Recording paused" else "Recording resumed");
      }
    }

    /** `updateRecordingStatus`: polls with GET_STATUS and shows the reply;
        `reply` is None when the send failed. */
    method UpdateRecordingStatus(reply: Option<Status>) returns (message: Message)
      modifies this
      ensures message == Protocol.GetStatus
      ensures reply.None? ==> isRecording == old(isRecording) && isPaused == old(isPaused) && dom == old(dom)
      ensures reply.Some? ==>
        && Shows(reply.value)
        && dom.statusText == (if reply.value.isRecording then old(dom.statusText) else "Ready to record")
        && dom.qualityValue == old(dom.qualityValue) && dom.audioChecked == old(dom.audioChecked)
    {
      message := Protocol.GetStatus;
      if reply.Some? {
        UpdateUI(reply.value);
      }
    }

    /** The popup's `runtime.onMessage` listener: only STATUS_UPDATE is read. */
    method OnMessage(message: Message)
      modifies this
      ensures message.StatusUpdate? ==>
        && Shows(message.status)
        && dom.statusText == (if message.status.isRecording then old(dom.statusText) else "Ready to record")
        && dom.qualityValue == old(dom.qualityValue) && dom.audioChecked == old(dom.audioChecked)
      ensures !message.StatusUpdate? ==>
        isRecording == old(isRecording) && isPaused == old(isPaused) && dom == old(dom)
    {
      if message.StatusUpdate? {
        UpdateUI(message.status);
      }
    }
  }
}
