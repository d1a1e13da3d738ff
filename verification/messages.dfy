/** Values the cloning pipeline reads from the remote chat service, the
    outcomes of its remote calls, and the records of what it sends to the
    destination chat. */
module Messages {

  datatype Option<T> = None | Some(value: T)

  /** A chat: only its id and whether it restricts forwarding matter here. */
  datatype Chat = Chat(id: int, noforwards: bool)

  /** A fetched message.
      `isService`: the message is a `MessageService`;
      `noforwards`: the message itself restricts forwarding;
      `hasMedia`: `message.media` is truthy;
      `hasFile`: `message.file` is not None;
      `fileName`: what `get_file_name` answers for the message;
      `text`: the body, sent as caption.
      In the service's data a message with a file always has media
      (`hasFile ==> hasMedia`); nothing in the model depends on that. */
  datatype Message = Message(
    id: int,
    isService: bool,
    noforwards: bool,
    hasMedia: bool,
    hasFile: bool,
    fileName: Option<string>,
    text: string)

  /** How a remote call (send, download, upload) ends. `FloodWait` is a
      flood-wait the client raises instead of sleeping through it. */
  datatype Outcome = Ok | ReferenceExpired | OtherFailure | FloodWait(seconds: nat)

  /** The client's `flood_sleep_threshold`: it sleeps through a flood-wait
      of at most this many seconds and retries, and raises a longer one. */
  const FloodSleepThreshold: nat := 11

  /** A flood-wait is only ever seen when the client raises it. */
  predicate Raisable(o: Outcome) {
    o.FloodWait? ==> o.seconds > FloodSleepThreshold
  }

  /** An error other than an expired file reference. */
  predicate IsFailure(o: Outcome) {
    o.OtherFailure? || o.FloodWait?
  }

  /** How one page of `iter_messages` ended, after yielding what it
      yielded: the iterator ran out, it raised a flood-wait, or it raised
      any other error. */
  datatype PageEnd = Exhausted | Flooded(seconds: nat) | Failed

  /** A flood-wait ends a page only when the client raises it. */
  predicate RaisableEnd(end: PageEnd) {
    end.Flooded? ==> end.seconds > FloodSleepThreshold
  }

  /** An item of the download queue: the message and the local file it was
      downloaded to. */
  datatype DownloadItem = DownloadItem(msg: Message, path: string)

  /** Where the bytes of a file send come from. */
  datatype FileSource = LocalFile(path: string) | ByReference

  /** One message delivered to the destination chat: a plain copy, sent by
      `send_message`, of any message without a file (text, but also media
      such as a poll, a location or a contact), or a file send. */
  datatype Delivery = PlainCopy(msg: Message) | FileSend(msg: Message, source: FileSource)

  /** The send `_send_copy_message` performs: a plain copy of a message that
      has no file, otherwise a file send with the message's name and caption,
      taken from the local file when one is given and by reference otherwise. */
  function SendCopy(m: Message, filePath: Option<string>): (d: Delivery)
    ensures d.msg == m
    ensures d.PlainCopy? <==> !m.hasFile
    ensures d.FileSend? ==> (d.source.LocalFile? <==> filePath.Some?)
    ensures d.FileSend? && filePath.Some? ==> d.source.path == filePath.value
  {
    if !m.hasFile then PlainCopy(m)
    else if filePath.Some? then FileSend(m, LocalFile(filePath.value))
    else FileSend(m, ByReference)
  }
}
