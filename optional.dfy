/** Kotlin's nullable types (`String?`, `VoiceNote?`) as an option value. */
module Optional {

  datatype Option<+T> = None | Some(value: T)
}
