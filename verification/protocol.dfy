/** Values that travel between the popup and the background service worker
    over the extension's runtime messaging channel. */
module Protocol {

  datatype Option<+T> = None | Some(value: T)

  /** The status snapshot `{isRecording, isPaused, duration}` (milliseconds). */
  datatype Status = Status(isRecording: bool, isPaused: bool, duration: int)

  /** The snapshot of a controller that holds no session. */
  const IdleStatus: Status := Status(false, false, 0)

  /** The `options` the popup attaches to a start request. */
  datatype Options = Options(quality: string, audioEnabled: bool)

  /** A runtime message, told apart by its `action` field. `Other` is any
      action string the listeners do not switch on. */
  datatype Message =
    | StartRecording(options: Options)
    | StopRecording
    | TogglePause
    | GetStatus
    | StatusUpdate(status: Status)
    | Other(action: string)

  /** What the background passes to `sendResponse`: `{success}` or a snapshot. */
  datatype Response = Ack(success: bool) | StatusReply(status: Status)
}
