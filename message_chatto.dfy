/**
 * How an SDK message presents itself to the chat UI: its item type, uid, sender,
 * direction, delivery status and read count (ChatBird/Classes/SBDBaseMessage+Chatto.swift).
 */
module MessageChatto {
  import opened Wrappers
  import opened Sdk
  import Decimal

  /** `MessageType` and its raw strings. */
  datatype MessageType = Text | Photo | AdminType {
    function RawValue(): (s: string)
      ensures s in {"text", "photo", "admin"}
    {
      match this
      case Text => "text"
      case Photo => "photo"
      case AdminType => "admin"
    }
  }

  /** Chatto's `MessageStatus`. */
  datatype MessageStatus = Sending | StatusFailed | Success

  predicate IsUserType(m: Message) {
    m.content.UserContent? || m.content.FileContent?
  }

  /**
   * `messageType`: user messages are text, file messages photos, admin messages admin.
   * Any other subclass reaches `fatalError`, modelled as `None`.
   */
  function MessageTypeOf(m: Message): (r: Option<MessageType>)
    ensures r == Some(Text) <==> m.content.UserContent?
    ensures r == Some(Photo) <==> m.content.FileContent?
    ensures r == Some(AdminType) <==> m.content.AdminContent?
    ensures r == None <==> m.content.OtherContent?
  {
    match m.content
    case UserContent(_, _, _, _) => Some(Text)
    case FileContent(_, _, _, _) => Some(Photo)
    case AdminContent(_) => Some(AdminType)
    case OtherContent => None
  }

  /** `type`: the raw string of `messageType` (`None` where that traps). */
  function ItemType(m: Message): (r: Option<string>)
    ensures r.Some? <==> !m.content.OtherContent?
    ensures r == Some("text") <==> m.content.UserContent?
    ensures r == Some("photo") <==> m.content.FileContent?
    ensures r == Some("admin") <==> m.content.AdminContent?
  {
    match MessageTypeOf(m)
    case Some(t) => Some(t.RawValue())
    case None => None
  }

  /** `uid`: the decimal rendering of the message id. */
  function Uid(m: Message): (r: string)
    ensures Decimal.ParseInt(r) == Some(m.messageId)
  {
    Decimal.ParseIntToString(m.messageId);
    Decimal.IntToString(m.messageId)
  }

  /** Equal uids mean equal message ids: the uid is a faithful key for a message. */
  lemma UidDeterminesId(a: Message, b: Message)
    ensures Uid(a) == Uid(b) <==> a.messageId == b.messageId
  {
    Decimal.IntToStringInjective(a.messageId, b.messageId);
  }

  /** A message uid holds only digits and a minus sign, so it never equals `s` when `s` has a letter. */
  lemma UidHasNoLetter(m: Message, s: string, k: nat)
    requires k < |s| && 'a' <= s[k] <= 'z'
    ensures Uid(m) != s
  {
  }

  /**
   * `senderId`: "admin" for admin messages, the sender's user id (or "no-sender")
   * for user and file messages, "unknown" for anything else.
   */
  function SenderId(m: Message): (r: string)
    ensures m.content.AdminContent? ==> r == "admin"
    ensures IsUserType(m) ==> r == m.content.sender.GetOr("no-sender")
    ensures m.content.OtherContent? ==> r == "unknown"
  {
    match m.content
    case AdminContent(_) => "admin"
    case UserContent(_, _, sender, _) => sender.GetOr("no-sender")
    case FileContent(_, _, sender, _) => sender.GetOr("no-sender")
    case OtherContent => "unknown"
  }

  /**
   * `isIncoming` given the current user's id (`None` when nobody is logged in):
   * admin and unknown messages are incoming; user and file messages are incoming
   * when they have a sender whose id is not the current user's.
   */
  function IsIncoming(m: Message, currentUserId: Option<string>): (r: bool)
    ensures !IsUserType(m) ==> r
    ensures IsUserType(m) && m.content.sender.None? ==> !r
    ensures IsUserType(m) && currentUserId.None? ==> (r <==> m.content.sender.Some?)
  {
    if m.content.AdminContent? then true
    else if !IsUserType(m) then true
    else m.content.sender.Some? && m.content.sender != currentUserId
  }

  /**
   * A message is shown as outgoing exactly when it is a user or file message that either
   * has no sender or whose sender id is the current user's.
   */
  lemma OutgoingIffOwnOrSenderless(m: Message, currentUserId: Option<string>)
    ensures !IsIncoming(m, currentUserId) <==>
      IsUserType(m) && (m.content.sender.None? || currentUserId == Some(SenderId(m)))
  {
    match m.content
    case UserContent(_, _, sender, _) =>
      assert SenderId(m) == sender.GetOr("no-sender");
    case FileContent(_, _, sender, _) =>
      assert SenderId(m) == sender.GetOr("no-sender");
    case AdminContent(_) =>
    case OtherContent =>
  }

  /**
   * `status`: for user and file messages the request state decides (none or pending is
   * sending, failed is failed, succeeded is success); every other message is a success.
   */
  function Status(m: Message): (r: MessageStatus)
    ensures r == Sending <==> IsUserType(m) && m.content.requestState in {NoneState, Pending}
    ensures r == StatusFailed <==> IsUserType(m) && m.content.requestState == Failed
    ensures !IsUserType(m) ==> r == Success
  {
    if !IsUserType(m) then Success
    else match m.content.requestState
      case NoneState => Sending
      case Pending => Sending
      case Failed => StatusFailed
      case Succeeded => Success
  }

  /**
   * `readCount(for:)`: the other members (`memberCount - 1`) minus the channel's
   * read receipt for the message, in `Int32`. Swift traps when `memberCount` is 0
   * (unsigned underflow), when `memberCount - 1` does not fit `Int32`, and when
   * the subtraction overflows; each trap is `None`.
   */
  function ReadCount(memberCount: nat, readReceipt: int): (r: Option<int>)
    requires InInt32(readReceipt)
    ensures r.Some? <==> 1 <= memberCount && memberCount - 1 <= Int32Max && InInt32(memberCount - 1 - readReceipt)
    ensures r.Some? ==> r.value + readReceipt == memberCount - 1
    ensures 1 <= memberCount <= Int32Max + 1 && 0 <= readReceipt <= memberCount - 1 ==>
      r.Some? && 0 <= r.value <= memberCount - 1
  {
    if memberCount == 0 || memberCount - 1 > Int32Max then None
    else
      var others := memberCount - 1;
      if InInt32(others - readReceipt) then Some(others - readReceipt) else None
  }
}
