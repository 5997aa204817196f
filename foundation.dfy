/** Value types the audio-message code borrows from Swift and Foundation. */
module Foundation {

  /** Swift's `Optional`. */
  datatype Option<+T> = None | Some(value: T)

  /** A position in a messages collection view: one section per message, items inside it. */
  datatype IndexPath = IndexPath(section: nat, item: nat)

  /** An audio file locator; the model never looks inside it. */
  type Url = string
}
