/** The chat-platform side: the messages a channel receives and the channel itself. */
module Chat {
  import opened Wrappers
  import opened Submission

  /** A message as it lands in a channel. */
  datatype Message =
    | Posted(renderer: Renderer, item: Submission)       // whatever an image, video, gallery or text renderer posts for the item
    | Markdown(content: string)                           // the plain message of the selftext renderer
    | Diagnostic(title: string, description: string, url: string)  // the diagnostic embed `sendEmbedError` sends; renderer embeds are folded into `Posted`

  /**
   * A text channel. Its topic is set by the channel's owners and may be
   * missing; `log` is everything sent to the channel, oldest first.
   */
  class Channel {
    const topic: Option<string>
    var log: seq<Message>

    constructor (topic: Option<string>)
      ensures this.topic == topic && log == []
    {
      this.topic := topic;
      log := [];
    }

    /** `channel.send(message)`: the message is appended to what the channel holds. */
    method Send(message: Message)
      modifies this
      ensures log == old(log) + [message]
    {
      log := log + [message];
    }
  }
}
