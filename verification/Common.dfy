/** Small datatypes shared by the models. */
module Common {
  /** A value that the program may hold as `null` or `undefined`. */
  datatype Option<+T> = None | Some(value: T)

  /** What a per-item row is about: an issue, or an attachment named after its issue and its own id. */
  datatype ItemId = IssueId(key: string) | AttachmentId(key: string, id: string)
}
