/**
 * The slack-go values that the command dispatcher and the knowledge handler
 * read and produce. Only the fields the bot's logic consults are kept.
 */
module Slack {

  /** `slackevents.MessageEvent`. */
  datatype MessageEvent = MessageEvent(
    channel: string,
    user: string,
    text: string,
    timeStamp: string,
    threadTimeStamp: string,
    botID: string)

  /** The payload of an Events API event (`evt.InnerEvent.Data`). */
  datatype InnerEvent =
    | AppMention(channel: string, user: string, text: string, timeStamp: string, threadTimeStamp: string)
    | Message(msg: MessageEvent)
    | OtherEvent(typeName: string)

  /** `slackevents.EventsAPIEvent`: the outer event type and its payload. */
  datatype EventsAPIEvent = EventsAPIEvent(eventType: string, inner: InnerEvent)

  /**
   * One `slack.MsgOption` of an outgoing message: a text section (with its
   * escape flag), a block of texts with links, the thread timestamp the
   * message is anchored to, or block content built by a callback.
   */
  datatype MsgOption =
    | Text(body: string, escape: bool)
    | UrlBlocks(texts: seq<string>, urls: seq<string>)
    | ThreadTimestamp(ts: string)
    | Blocks(content: string)
}
