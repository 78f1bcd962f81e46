/** Value types shared by the playback transport and the session state of the ZenFlow app. */
module Types {

  /** The screen/transport state of the app (the `AppState` enum). */
  datatype AppState = Idle | GeneratingScript | ReadyToPlay | Playing | Paused

  /** A decoded audio buffer, opaque except for its length in seconds. */
  datatype AudioClip = AudioClip(duration: real)

  /** A nullable value (`null` in the source). */
  datatype Option<T> = None | Some(value: T)

  /** The result of an awaited external call: the resolved value, or a rejection. */
  datatype Outcome<T> = Success(value: T) | Failure

  /** Which of the two user-facing error messages is shown. */
  datatype ErrorKind = ScriptFailed | AudioFailed
}
