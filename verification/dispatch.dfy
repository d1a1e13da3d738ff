/** The decision `_messages_trial` takes for each fetched message. */
module Dispatch {
  import opened Messages

  /** Skip: a service message, nothing is sent or queued.
      Copy: the message is sent to the destination as a copy.
      Defer: the media is downloaded and queued for a later upload. */
  datatype Decision = Skip | Copy | Defer

  /** The media of a message cannot be sent by reference when the origin
      chat or the message itself restricts forwarding. */
  predicate ProtectedMedia(origin: Chat, m: Message) {
    (origin.noforwards || m.noforwards) && m.hasMedia
  }

  /** Every message gets exactly one decision: service messages are skipped,
      protected media is deferred, everything else is copied, including a
      text-only message of a protected chat. */
  function Classify(origin: Chat, m: Message): (d: Decision)
    ensures d == Skip <==> m.isService
    ensures d == Defer <==> !m.isService && (origin.noforwards || m.noforwards) && m.hasMedia
    ensures d == Copy <==> !m.isService && !(m.hasMedia && (origin.noforwards || m.noforwards))
  {
    if m.isService then Skip
    else if ProtectedMedia(origin, m) then Defer
    else Copy
  }
}
