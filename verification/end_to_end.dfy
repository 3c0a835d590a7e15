/** The service worker and the popup together: a status snapshot the
    controller reports, as the popup's timer shows it. */
module EndToEnd {
  import opened Protocol
  import opened Background
  import opened Popup

  /** Start at 1000, pause at 6000, resume at 16000: because the resume keeps
      the old `pauseTime`, every later status carries -5000 ms, and the popup
      prints it with minus signs. */
  method NegativeTimerAfterLongPause(initial: Elements, later: int)
    returns (status: Status, timer: string)
    ensures status == Status(true, false, -5000)
    ensures timer == "-1:-1:-5"
  {
    var c := new Controller();
    var _, _, _ := c.StartRecording(Some(Settings(None, true)), Granted(1), true, 1000);
    var _ := c.TogglePause(6000);
    var _ := c.TogglePause(16000);
    status := c.GetStatus(later);
    assert status.duration == -5000;
    var v := new View(initial);
    v.OnMessage(StatusUpdate(status));
    timer := v.dom.timerText;
    FormatTimeMinusFiveSeconds(status.duration);
  }
}
