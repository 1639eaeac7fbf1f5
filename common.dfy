/** Small helper types shared by the backends: `Option` and the audio direction. */
module Wrappers {

  /** A value that may be absent: a null pointer or a missing field in the native layer. */
  datatype Option<+T> = None | Some(value: T) {

    /** The wrapped value, or `default` when there is none. */
    function GetOr(default: T): T {
      match this
      case Some(v) => v
      case None => default
    }
  }
}

/** The audio direction enumeration of the host multimedia framework (QAudio::Mode). */
module QAudio {

  datatype Mode = AudioOutput | AudioInput
}
