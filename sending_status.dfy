/**
 * The decoration under an outgoing message that says whether it is being sent,
 * failed, was sent, or was read (ChatBird/Classes/SendingStatusPresenter.swift).
 * Strings are the English texts; localisation is the identity here.
 */
module SendingStatus {
  import opened Sdk
  import opened MessageChatto
  import Decimal

  /** `SendingStatusModel`. `seenCount` is an `Int32`. */
  datatype StatusModel = StatusModel(uid: string, status: MessageStatus, isMultiUserGroup: bool, seenCount: int)

  const StatusItemType: string := "decoration-status"

  /** The chat items a presenter builder is offered: a status model, or any other item with its type. */
  datatype ChatItem = StatusItem(model: StatusModel) | OtherItem(uid: string, itemType: string)

  function ItemTypeOf(item: ChatItem): string {
    match item
    case StatusItem(_) => StatusItemType
    case OtherItem(_, t) => t
  }

  /** `canHandleChatItem`: true exactly for a `SendingStatusModel`, whose type is "decoration-status". */
  function CanHandleChatItem(item: ChatItem): (r: bool)
    ensures r <==> item.StatusItem?
    ensures r ==> ItemTypeOf(item) == "decoration-status"
  {
    item.StatusItem?
  }

  /** "Read by N participant", with an "s" unless N is 1 (`%d` is the decimal of N). */
  function ReadByText(n: int): string {
    "Read by " + Decimal.IntToString(n) + " participant" + (if n == 1 then "" else "s")
  }

  /**
   * `statusText()`. Each of the five texts is produced in exactly one situation:
   * failed, sending, success seen by nobody, success seen in a one-to-one chat,
   * and success seen by N participants of a multi-user group.
   */
  function StatusText(m: StatusModel): (r: string)
    requires InInt32(m.seenCount)
    ensures r == "Sending failed" <==> m.status == StatusFailed
    ensures r == "Sending..." <==> m.status == Sending
    ensures r == "Sent" <==> m.status == Success && m.seenCount == 0
    ensures r == "Read" <==> m.status == Success && m.seenCount != 0 && !m.isMultiUserGroup
    ensures m.status == Success && m.seenCount != 0 && m.isMultiUserGroup ==> r == ReadByText(m.seenCount)
  {
    match m.status
    case StatusFailed => "Sending failed"
    case Sending => "Sending..."
    case Success =>
      if m.seenCount == 0 then "Sent"
      else if m.isMultiUserGroup then
        var t := ReadByText(m.seenCount);
        assert t[0] == 'R' && t[4] == ' ' && |t| > 8;
        t
      else "Read"
  }

  /** The number in a "Read by" text can be read back, so distinct counts give distinct texts. */
  lemma ReadByTextInjective(a: int, b: int)
    ensures ReadByText(a) == ReadByText(b) ==> a == b
  {
    if ReadByText(a) == ReadByText(b) {
      var sa, sb := Decimal.IntToString(a), Decimal.IntToString(b);
      var ua := " participant" + (if a == 1 then "" else "s");
      var ub := " participant" + (if b == 1 then "" else "s");
      assert ReadByText(a) == "Read by " + (sa + ua);
      assert ReadByText(b) == "Read by " + (sb + ub);
      assert sa + ua == ReadByText(a)[8..] == ReadByText(b)[8..] == sb + ub;
      NoSpaceInNumber(a);
      NoSpaceInNumber(b);
      SameWordBeforeSpace(sa, sb, ua, ub);
      Decimal.IntToStringInjective(a, b);
    }
  }

  lemma NoSpaceInNumber(n: int)
    ensures forall k :: 0 <= k < |Decimal.IntToString(n)| ==> Decimal.IntToString(n)[k] != ' '
  {
  }

  /** If `x + u == y + v`, both `u` and `v` start with a space and neither `x` nor `y` holds one, then `x == y`. */
  lemma {:induction false} SameWordBeforeSpace(x: string, y: string, u: string, v: string)
    requires x + u == y + v
    requires |u| > 0 && u[0] == ' ' && |v| > 0 && v[0] == ' '
    requires forall k :: 0 <= k < |x| ==> x[k] != ' '
    requires forall k :: 0 <= k < |y| ==> y[k] != ' '
    ensures x == y
  {
    var k := if |x| < |y| then |x| else |y|;
    assert (x + u)[k] == (y + v)[k];
    assert |x| == |y|;
    assert x == (x + u)[..|x|] == (y + v)[..|y|] == y;
  }

  datatype Color = Red | Gray

  /** The text colour chosen in `configureCell`: red exactly for a failed send, gray otherwise. */
  function TextColor(status: MessageStatus): (c: Color)
    ensures c == Red <==> status == StatusFailed
    ensures c == Gray <==> status != StatusFailed
  {
    if status == StatusFailed then Red else Gray
  }

  /** A status decoration for a message is red exactly when the message's request state is failed. */
  lemma RedIffRequestFailed(m: Message)
    ensures TextColor(Status(m)) == Red <==> IsUserType(m) && m.content.requestState == Failed
  {
  }
}
