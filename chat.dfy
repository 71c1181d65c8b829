/** The transcript both chat widgets keep: an ordered list of role-tagged messages. */
module Chat {
  import opened Wrappers

  /** `{ role, content }`. The widgets write the roles "system" and "user"; a reply carries
      whatever role the chat service gives it. */
  datatype Message = Message(role: string, content: string)

  /** One rendered entry of the log: `<strong>{speaker}:</strong> {content}`. */
  datatype Line = Line(speaker: string, content: string)

  /** `{ role: 'user', content: input }`: the text exactly as typed, untrimmed. */
  function UserMessage(input: string): (m: Message)
    ensures m.role == "user" && m.content == input
  {
    Message("user", input)
  }

  /** What a send leaves in the transcript after the list sent: the reply when the request
      succeeded, nothing when it failed. */
  function Replied(reply: Option<Message>): (r: seq<Message>)
    ensures |r| == (if reply.Some? then 1 else 0)
    ensures reply.Some? ==> r[0] == reply.value
  {
    match reply
    case Some(m) => [m]
    case None => []
  }
}
