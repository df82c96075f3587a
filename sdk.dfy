/**
 * The SendBird SDK's value types as this library sees them. Only the attributes
 * the library reads are kept; the SDK's own behaviour is outside the model.
 */
module Sdk {
  import opened Wrappers

  /** Bounds of Swift's `Int64` (message ids, timestamps) and `Int32` (read receipts). */
  const Int64Max: int := 0x7fff_ffff_ffff_ffff
  const Int32Min: int := -0x8000_0000
  const Int32Max: int := 0x7fff_ffff

  predicate InInt32(x: int) {
    Int32Min <= x <= Int32Max
  }

  /** `SBDMessageRequestState`. */
  datatype RequestState = NoneState | Pending | Failed | Succeeded

  /**
   * The concrete subclass of `SBDBaseMessage` and the fields each one carries.
   * `sender` is `sender?.userId`: `None` when the message has no sender.
   * `text` is the optional `message` string; `mimeType` is a file message's `type`.
   * `OtherContent` stands for any subclass the library does not know.
   */
  datatype Content =
    | UserContent(requestId: string, requestState: RequestState, sender: Option<string>, text: Option<string>)
    | FileContent(requestId: string, requestState: RequestState, sender: Option<string>, mimeType: string)
    | AdminContent(text: Option<string>)
    | OtherContent

  /** `SBDBaseMessage`: its id, its creation time in milliseconds, and its subclass. */
  datatype Message = Message(messageId: int, createdAt: int, content: Content)

  datatype User = User(userId: string)

  /**
   * `SBDBaseChannel`. `isGroup` tells an `SBDGroupChannel` apart; `name`,
   * `membersString`, `createdAt` and `lastMessage` are what the channel list shows.
   */
  datatype Channel = Channel(
    channelUrl: string,
    isGroup: bool,
    name: string,
    membersString: string,
    createdAt: int,
    lastMessage: Option<Message>)
}
