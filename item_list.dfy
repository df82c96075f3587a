/**
 * The ordered list of chat items a `GroupChannelDataSource` keeps, and the list
 * operations its methods perform: the loader sentinel (ChatBird/Classes/LoaderItem.swift),
 * the first-match searches of `hideLoading`, `update`, `remove` and the resend paths,
 * and the cursor arithmetic of `append` and `prepend`. Both copies of the data source
 * use these definitions.
 */
module ItemList {
  import opened Wrappers
  import opened Sdk
  import MessageChatto

  /** `LoaderItem.uid`. */
  const LoaderUid: string := "loading"

  /** A chat item: the loader sentinel or an SDK message. */
  datatype Item = Loader | Msg(message: Message)

  /** The update tags handed to the chat view's delegate; `Plain` is the call without a tag. */
  datatype UpdateTag = Plain | Normal | FirstLoad | Pagination | MessageCountReduction

  /** Calls the data source makes on the backend. */
  datatype Request =
    | FetchPrevious(timestamp: int, limit: int)
    | FetchNext(timestamp: int, limit: int)
    | SendUserMessage(text: string)
    | SendFileMessage(mimeType: string)
    | ResendUserMessage(message: Message)
    | ResendFileMessage(message: Message)

  /** Why the process stops: `fatalError` on a failed send, or an out-of-range subscript write. */
  datatype Crash = SendFailed | IndexOutOfRange

  /** How the completion of a send or resend ends. */
  datatype SendOutcome = Replaced | NotFound | Logged | Crashed(reason: Crash)

  /** `uid` of a chat item: the loader's fixed uid, or the message's decimal id. */
  function Uid(item: Item): (r: string)
    ensures r == LoaderUid <==> item.Loader?
  {
    match item
    case Loader => LoaderUid
    case Msg(m) => MessageChatto.UidHasNoLetter(m, LoaderUid, 0); MessageChatto.Uid(m)
  }

  /** What a first-match search is looking for. */
  datatype Key =
    | LoaderKey                           // `$0.uid == loadingToken.uid`
    | MessageIdKey(id: int)               // `($0 as? SBDBaseMessage)?.messageId == id`
    | UserRequestKey(requestId: string)   // `($0 as? SBDUserMessage)?.requestId == requestId`
    | FileRequestKey(requestId: string)   // `($0 as? SBDFileMessage)?.requestId == requestId`

  /** Whether an item passes the closure of a first-match search. */
  predicate Matches(item: Item, key: Key)
    ensures Matches(item, key) && !key.LoaderKey? ==> item.Msg?
    ensures Matches(item, key) && key.UserRequestKey? ==> item.message.content.UserContent?
    ensures Matches(item, key) && key.FileRequestKey? ==> item.message.content.FileContent?
  {
    match key
    case LoaderKey => Uid(item) == LoaderUid
    case MessageIdKey(id) => item.Msg? && item.message.messageId == id
    case UserRequestKey(r) =>
      item.Msg? && item.message.content.UserContent? && item.message.content.requestId == r
    case FileRequestKey(r) =>
      item.Msg? && item.message.content.FileContent? && item.message.content.requestId == r
  }

  /** Searching by the loader's uid finds loaders and nothing else: a message uid is a number. */
  lemma LoaderUidMatchesOnlyLoader(item: Item)
    ensures Matches(item, LoaderKey) <==> item.Loader?
  {
    if item.Msg? {
      MessageChatto.UidHasNoLetter(item.message, LoaderUid, 0);
    }
  }

  /** `firstIndex(where:)`. */
  function FirstIndex(items: seq<Item>, key: Key): (r: Option<nat>)
    ensures r.Some? ==> r.value < |items| && Matches(items[r.value], key)
    ensures r.Some? ==> forall j :: 0 <= j < r.value ==> !Matches(items[j], key)
    ensures r.None? <==> forall j :: 0 <= j < |items| ==> !Matches(items[j], key)
  {
    if items == [] then None
    else if Matches(items[0], key) then Some(0)
    else match FirstIndex(items[1..], key)
      case None => None
      case Some(i) => Some(i + 1)
  }

  /** `remove(at:)` of the first match, or nothing when none matches. */
  function RemoveFirst(items: seq<Item>, key: Key): (r: seq<Item>)
    ensures FirstIndex(items, key).None? ==> r == items
    ensures FirstIndex(items, key).Some? ==>
      var i := FirstIndex(items, key).value; |r| == |items| - 1 && r == items[..i] + items[i + 1..]
  {
    match FirstIndex(items, key)
    case None => items
    case Some(i) => items[..i] + items[i + 1..]
  }

  /** A subscript write at the first match, or nothing when none matches. */
  function ReplaceFirst(items: seq<Item>, key: Key, item: Item): (r: seq<Item>)
    ensures |r| == |items|
    ensures FirstIndex(items, key).None? ==> r == items
    ensures FirstIndex(items, key).Some? ==> r == items[FirstIndex(items, key).value := item]
  {
    match FirstIndex(items, key)
    case None => items
    case Some(i) => items[i := item]
  }

  /** Messages as chat items, in order. */
  function Msgs(page: seq<Message>): (r: seq<Item>)
    ensures |r| == |page|
    ensures forall i :: 0 <= i < |page| ==> r[i] == Msg(page[i])
  {
    seq(|page|, i requires 0 <= i < |page| => Msg(page[i]))
  }

  /** The number of items a key matches. */
  function Count(items: seq<Item>, key: Key): nat {
    if items == [] then 0 else (if Matches(items[0], key) then 1 else 0) + Count(items[1..], key)
  }

  lemma {:induction false} CountZeroIffNoMatch(items: seq<Item>, key: Key)
    ensures Count(items, key) == 0 <==> FirstIndex(items, key).None?
  {
    if items != [] {
      CountZeroIffNoMatch(items[1..], key);
    }
  }

  lemma {:induction false} CountAppend(a: seq<Item>, b: seq<Item>, key: Key)
    ensures Count(a + b, key) == Count(a, key) + Count(b, key)
  {
    if a == [] {
      assert a + b == b;
    } else {
      assert (a + b)[1..] == a[1..] + b;
      CountAppend(a[1..], b, key);
    }
  }

  /** Removing the first match lowers the number of matches by one, when there is one. */
  lemma RemoveFirstCount(items: seq<Item>, key: Key)
    ensures Count(RemoveFirst(items, key), key) == if Count(items, key) > 0 then Count(items, key) - 1 else 0
  {
    CountZeroIffNoMatch(items, key);
    match FirstIndex(items, key)
    case None =>
    case Some(i) =>
      CountSplit(items, i, key);
      CountAppend(items[..i], items[i + 1..], key);
  }

  lemma CountSplit(items: seq<Item>, i: nat, key: Key)
    requires i < |items|
    ensures Count(items, key) ==
      Count(items[..i], key) + (if Matches(items[i], key) then 1 else 0) + Count(items[i + 1..], key)
  {
    var tail := [items[i]] + items[i + 1..];
    assert items == items[..i] + tail;
    CountAppend(items[..i], tail, key);
    assert tail[1..] == items[i + 1..];
  }

  /**
   * Deleting by message id twice changes the list only the first time when the id
   * occurs at most once.
   */
  lemma RemoveTwiceIsRemoveOnce(items: seq<Item>, id: int)
    requires Count(items, MessageIdKey(id)) <= 1
    ensures RemoveFirst(RemoveFirst(items, MessageIdKey(id)), MessageIdKey(id)) == RemoveFirst(items, MessageIdKey(id))
  {
    var once := RemoveFirst(items, MessageIdKey(id));
    RemoveFirstCount(items, MessageIdKey(id));
    CountZeroIffNoMatch(once, MessageIdKey(id));
  }

  /** Removing the first match keeps every other item, in order. */
  lemma RemoveFirstKeepsOthers(items: seq<Item>, key: Key)
    requires FirstIndex(items, key).Some?
    ensures var i := FirstIndex(items, key).value;
      forall j :: 0 <= j < |items| - 1 ==>
        RemoveFirst(items, key)[j] == if j < i then items[j] else items[j + 1]
  {
    var i := FirstIndex(items, key).value;
    DeleteAt(items, i);
  }

  /** Deleting position `i` keeps the items before it and moves those after it up by one. */
  lemma DeleteAt(items: seq<Item>, i: nat)
    requires i < |items|
    ensures forall j :: 0 <= j < |items| - 1 ==>
      (items[..i] + items[i + 1..])[j] == if j < i then items[j] else items[j + 1]
  {
  }


  /** `showLoading` then `hideLoading`: the loader put in front is the one taken out. */
  lemma ShowThenHide(items: seq<Item>)
    ensures RemoveFirst([Loader] + items, LoaderKey) == items
  {
    LoaderUidMatchesOnlyLoader(Loader);
    assert FirstIndex([Loader] + items, LoaderKey) == Some(0);
  }

  /** `showLoading` does not look for an existing loader: every call adds one more. */
  lemma ShowAddsALoader(items: seq<Item>)
    ensures Count([Loader] + items, LoaderKey) == Count(items, LoaderKey) + 1
  {
    LoaderUidMatchesOnlyLoader(Loader);
    assert ([Loader] + items)[1..] == items;
  }

  /** The messages of a list, without the loader. */
  function MessagesOf(items: seq<Item>): (r: seq<Message>)
    ensures |r| <= |items|
  {
    if items == [] then []
    else (match items[0] case Loader => [] case Msg(m) => [m]) + MessagesOf(items[1..])
  }

  lemma {:induction false} MessagesOfAppend(a: seq<Item>, b: seq<Item>)
    ensures MessagesOf(a + b) == MessagesOf(a) + MessagesOf(b)
  {
    if a == [] {
      assert a + b == b;
    } else {
      assert (a + b)[1..] == a[1..] + b;
      MessagesOfAppend(a[1..], b);
    }
  }

  lemma {:induction false} MessagesOfMsgs(page: seq<Message>)
    ensures MessagesOf(Msgs(page)) == page
  {
    if page != [] {
      assert Msgs(page)[1..] == Msgs(page[1..]);
      MessagesOfMsgs(page[1..]);
    }
  }

  /** Hiding the loader leaves the messages as they were. */
  lemma HideKeepsMessages(items: seq<Item>)
    ensures MessagesOf(RemoveFirst(items, LoaderKey)) == MessagesOf(items)
  {
    match FirstIndex(items, LoaderKey)
    case None =>
    case Some(i) =>
      LoaderUidMatchesOnlyLoader(items[i]);
      RemoveLoaderAt(items, i);
  }

  lemma RemoveLoaderAt(items: seq<Item>, i: nat)
    requires i < |items| && items[i].Loader?
    ensures MessagesOf(items[..i] + items[i + 1..]) == MessagesOf(items)
  {
    var before, after := items[..i], items[i + 1..];
    var tail := [Loader] + after;
    assert items == before + tail;
    assert tail[1..] == after;
    assert MessagesOf(tail) == MessagesOf(after);
    MessagesOfAppend(before, tail);
    MessagesOfAppend(before, after);
  }

  predicate SortedByTime(ms: seq<Message>) {
    forall i, j :: 0 <= i < j < |ms| ==> ms[i].createdAt <= ms[j].createdAt
  }

  lemma SortedConcat(a: seq<Message>, b: seq<Message>)
    requires SortedByTime(a) && SortedByTime(b)
    requires a != [] && b != [] ==> a[|a| - 1].createdAt <= b[0].createdAt
    ensures SortedByTime(a + b)
  {
    forall i, j | 0 <= i < j < |a + b| ensures (a + b)[i].createdAt <= (a + b)[j].createdAt {
      if i < |a| && j >= |a| {
        assert a[i].createdAt <= a[|a| - 1].createdAt;
        assert b[0].createdAt <= b[j - |a|].createdAt;
      }
    }
  }

  /**
   * Ordering kept by `prepend`: a sorted page whose last message is no newer than the
   * oldest message already shown, put in front of the list without its loader,
   * leaves the messages sorted by creation time.
   */
  lemma PrependKeepsOrder(page: seq<Message>, items: seq<Item>)
    requires SortedByTime(page) && SortedByTime(MessagesOf(items))
    requires page != [] && MessagesOf(items) != [] ==>
      page[|page| - 1].createdAt <= MessagesOf(items)[0].createdAt
    ensures SortedByTime(MessagesOf(Msgs(page) + RemoveFirst(items, LoaderKey)))
    ensures MessagesOf(Msgs(page) + RemoveFirst(items, LoaderKey)) == page + MessagesOf(items)
  {
    MessagesOfAppend(Msgs(page), RemoveFirst(items, LoaderKey));
    MessagesOfMsgs(page);
    HideKeepsMessages(items);
    SortedConcat(page, MessagesOf(items));
  }

  /**
   * Ordering kept by `append`: a sorted page whose first message is no older than the
   * newest message shown, added at the end, leaves the messages sorted.
   */
  lemma AppendKeepsOrder(items: seq<Item>, page: seq<Message>)
    requires SortedByTime(page) && SortedByTime(MessagesOf(items))
    requires page != [] && MessagesOf(items) != [] ==>
      MessagesOf(items)[|MessagesOf(items)| - 1].createdAt <= page[0].createdAt
    ensures SortedByTime(MessagesOf(items + Msgs(page)))
    ensures MessagesOf(items + Msgs(page)) == MessagesOf(items) + page
  {
    MessagesOfAppend(items, Msgs(page));
    MessagesOfMsgs(page);
    SortedConcat(MessagesOf(items), page);
  }

  /**
   * `max((messages.last?.createdAt ?? 0), newestTimestamp ?? 0)` for a non-empty page:
   * the larger of the page's last timestamp and the old cursor, with 0 for no cursor.
   */
  function NewestAfter(page: seq<Message>, newest: Option<int>): (r: int)
    requires page != []
    ensures r >= page[|page| - 1].createdAt && r >= newest.GetOr(0)
    ensures r == page[|page| - 1].createdAt || r == newest.GetOr(0)
  {
    var last := page[|page| - 1].createdAt;
    var previous := newest.GetOr(0);
    if last > previous then last else previous
  }

  /** The newest cursor never moves back, and after a sorted page it is at least every timestamp in it. */
  lemma NewestCoversPage(page: seq<Message>, newest: Option<int>)
    requires page != [] && SortedByTime(page)
    ensures forall i :: 0 <= i < |page| ==> page[i].createdAt <= NewestAfter(page, newest)
    ensures newest.Some? ==> newest.value <= NewestAfter(page, newest)
  {
    forall i | 0 <= i < |page| ensures page[i].createdAt <= NewestAfter(page, newest) {
      if i < |page| - 1 {
        assert page[i].createdAt <= page[|page| - 1].createdAt;
      }
    }
  }

  /**
   * The send index goes stale once a page is prepended: the provisional message moves
   * `|page|` places on, and the confirmed message is then written over whatever item
   * now sits at the recorded index.
   */
  lemma PrependMovesProvisional(items: seq<Item>, page: seq<Message>, index: nat)
    requires index < |items| && FirstIndex(items, LoaderKey).None?
    ensures var after := Msgs(page) + RemoveFirst(items, LoaderKey);
      |after| == |items| + |page| &&
      after[index + |page|] == items[index] &&
      after[index] == if index < |page| then Msg(page[index]) else items[index - |page|]
  {
  }

  /**
   * Confirming a send at the index of its provisional message keeps the list length and
   * leaves exactly one item with that request id, when it was the only one before.
   */
  lemma ConfirmInPlace(items: seq<Item>, index: nat, sent: Message)
    requires index < |items| && sent.content.UserContent?
    requires Matches(items[index], UserRequestKey(sent.content.requestId))
    requires Count(items, UserRequestKey(sent.content.requestId)) == 1
    ensures |items[index := Msg(sent)]| == |items|
    ensures Count(items[index := Msg(sent)], UserRequestKey(sent.content.requestId)) == 1
  {
    var key := UserRequestKey(sent.content.requestId);
    var after := items[index := Msg(sent)];
    CountSplit(items, index, key);
    CountSplit(after, index, key);
    assert after[..index] == items[..index] && after[index + 1..] == items[index + 1..];
  }

  /** Updating by id replaces one item and keeps the others in place. */
  lemma UpdateKeepsOthers(items: seq<Item>, m: Message)
    ensures var r := ReplaceFirst(items, MessageIdKey(m.messageId), Msg(m));
      |r| == |items| &&
      forall j :: 0 <= j < |items| && r[j] != items[j] ==>
        FirstIndex(items, MessageIdKey(m.messageId)) == Some(j) && r[j] == Msg(m)
  {
  }
}
