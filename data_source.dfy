/**
 * `GroupChannelDataSource` of the library (ChatBird/Classes/ChatBirdDataSource.swift).
 * Each asynchronous SDK call is split in two: the method that issues it, and a
 * `Complete…` method that runs its callback with the backend's response (`None` for a
 * nil result). A callback that never arrives is a `Complete…` method never called.
 */
module DataSource {
  import opened Wrappers
  import opened Sdk
  import opened ItemList
  import opened Paging
  import Observers

  class GroupChannelDataSource {
    const channelUrl: string
    const registry: Observers.Registry

    var hasMoreNext: bool
    var hasMorePrevious: bool
    var chatItems: seq<Item>
    var isLoadingPrevious: bool
    var isLoadingNext: bool
    var oldestTimestamp: int
    var newestTimestamp: Option<int>
    var observerToken: Option<Observers.Token>
    var readObserverToken: Option<Observers.Token>

    /** Calls of the chat view's `chatDataSourceDidUpdate`, with their tags. */
    var updates: seq<UpdateTag>
    /** Calls of `channel.markAsRead()`. */
    var markAsReadCalls: nat
    /** Calls made on the SDK channel. */
    var requests: seq<Request>

    function State(): SourceState
      reads this
    {
      SourceState(chatItems, hasMorePrevious, hasMoreNext, isLoadingPrevious, isLoadingNext,
                  oldestTimestamp, newestTimestamp, observerToken, readObserverToken,
                  updates, markAsReadCalls, requests)
    }

    /** `init(channel:)`: an empty list, no cursor but `Int64.max` for older pages, pages of 20. */
    constructor (channelUrl: string, registry: Observers.Registry)
      ensures this.channelUrl == channelUrl && this.registry == registry
      ensures State() == SourceState([], false, false, false, false, Int64Max, None, None, None, [], 0, [])
    {
      this.channelUrl := channelUrl;
      this.registry := registry;
      hasMoreNext, hasMorePrevious := false, false;
      chatItems := [];
      isLoadingPrevious, isLoadingNext := false, false;
      oldestTimestamp := Int64Max;
      newestTimestamp := None;
      observerToken, readObserverToken := None, None;
      updates, markAsReadCalls, requests := [], 0, [];
    }

    /**
     * `loadInitialMessages`: shows the loader, asks for the page before `oldestTimestamp`,
     * and registers a message observer and a read observer for this channel.
     * The flag `isLoadingPrevious` is not set.
     */
    method LoadInitialMessages()
      requires registry.Valid()
      modifies this, registry
      ensures registry.Valid()
      ensures observerToken.Some? && readObserverToken.Some? && observerToken != readObserverToken
      ensures registry.delegates == old(registry.delegates) + [
        Observers.ChannelDelegate(observerToken.value, Some(channelUrl), Observers.MessageHandler),
        Observers.ChannelDelegate(readObserverToken.value, Some(channelUrl), Observers.ReadHandler)]
      ensures State() == old(State()).(
        items := [Loader] + old(chatItems),
        updates := old(updates) + [Plain],
        requests := old(requests) + [FetchPrevious(old(oldestTimestamp), PageSize)],
        observerToken := observerToken,
        readObserverToken := readObserverToken)
    {
      ShowLoading();
      requests := requests + [FetchPrevious(oldestTimestamp, PageSize)];
      var messageToken := registry.AddMessage(Some(channelUrl));
      observerToken := Some(messageToken);
      assert registry.delegates[|registry.delegates| - 1].uuid == messageToken;
      var readToken := registry.AddRead(Some(channelUrl));
      readObserverToken := Some(readToken);
    }

    /** The callback of the initial fetch: a page is prepended as the first load, then the channel is marked read. */
    method CompleteInitialLoad(response: Option<seq<Message>>)
      modifies this
      ensures response.None? ==> State() == old(State())
      ensures response.Some? ==> State() == PrependResult(old(State()), response.value, FirstLoad).(
        markAsReadCalls := old(markAsReadCalls) + 1)
    {
      if response.None? {
        return;
      }
      Prepend(response.value, FirstLoad);
      markAsReadCalls := markAsReadCalls + 1;
    }

    /** `loadNext`: nothing while a newer page is in flight or before any cursor exists. */
    method LoadNext()
      modifies this
      ensures old(isLoadingNext) || old(newestTimestamp).None? ==> State() == old(State())
      ensures !old(isLoadingNext) && old(newestTimestamp).Some? ==> State() == old(State()).(
        isLoadingNext := true,
        requests := old(requests) + [FetchNext(old(newestTimestamp).value, PageSize)])
    {
      if isLoadingNext || newestTimestamp.None? {
        return;
      }
      isLoadingNext := true;
      requests := requests + [FetchNext(newestTimestamp.value, PageSize)];
    }

    /** The callback of `loadNext`: a page is appended and the flag cleared; a nil page changes nothing. */
    method CompleteLoadNext(response: Option<seq<Message>>)
      modifies this
      ensures response.None? ==> State() == old(State())
      ensures response.Some? ==> State() == AppendResult(old(State()), response.value).(isLoadingNext := false)
    {
      if response.None? {
        return;
      }
      Append(response.value);
      isLoadingNext := false;
    }

    /** `loadPrevious`: single-flight; otherwise sets the flag, shows the loader and asks for the older page. */
    method LoadPrevious()
      modifies this
      ensures old(isLoadingPrevious) ==> State() == old(State())
      ensures !old(isLoadingPrevious) ==> State() == old(State()).(
        isLoadingPrevious := true,
        items := [Loader] + old(chatItems),
        updates := old(updates) + [Plain],
        requests := old(requests) + [FetchPrevious(old(oldestTimestamp), PageSize)])
    {
      if isLoadingPrevious {
        return;
      }
      isLoadingPrevious := true;
      ShowLoading();
      requests := requests + [FetchPrevious(oldestTimestamp, PageSize)];
    }

    /** The callback of `loadPrevious`: a page is prepended for pagination and the flag cleared. */
    method CompleteLoadPrevious(response: Option<seq<Message>>)
      modifies this
      ensures response.None? ==> State() == old(State())
      ensures response.Some? ==>
        State() == PrependResult(old(State()), response.value, Pagination).(isLoadingPrevious := false)
    {
      if response.None? {
        return;
      }
      Prepend(response.value, Pagination);
      isLoadingPrevious := false;
    }

    /** `showLoading`: a loader in front, whether or not one is there already. */
    method ShowLoading()
      modifies this
      ensures State() == old(State()).(items := [Loader] + old(chatItems), updates := old(updates) + [Plain])
    {
      chatItems := [Loader] + chatItems;
      updates := updates + [Plain];
    }

    /** `hideLoading`: removes the first item carrying the loader uid, if any; always notifies. */
    method HideLoading()
      modifies this
      ensures State() == old(State()).(
        items := RemoveFirst(old(chatItems), LoaderKey), updates := old(updates) + [Plain])
    {
      var index := FirstIndex(chatItems, LoaderKey);
      if index.Some? {
        chatItems := chatItems[..index.value] + chatItems[index.value + 1..];
      }
      updates := updates + [Plain];
    }

    /** `append(messages:)`. */
    method Append(page: seq<Message>)
      modifies this
      ensures State() == AppendResult(old(State()), page)
    {
      if page == [] {
        hasMoreNext := false;
        return;
      }
      hasMoreNext := |page| >= PageSize;
      newestTimestamp := Some(NewestAfter(page, newestTimestamp));
      chatItems := chatItems + Msgs(page);
      updates := updates + [Normal];
      markAsReadCalls := markAsReadCalls + 1;
    }

    /** `prepend(messages:updateType:)`. */
    method Prepend(page: seq<Message>, tag: UpdateTag)
      modifies this
      ensures State() == PrependResult(old(State()), page, tag)
    {
      HideLoading();
      if page == [] {
        hasMorePrevious := false;
        return;
      }
      hasMorePrevious := |page| >= PageSize;
      oldestTimestamp := page[0].createdAt;
      newestTimestamp := Some(NewestAfter(page, newestTimestamp));
      chatItems := Msgs(page) + chatItems;
      updates := updates + [tag];
    }

    /** `update(message:)`: replaces the first message with the same id; nothing if there is none. */
    method Update(message: Message)
      modifies this
      ensures FirstIndex(old(chatItems), MessageIdKey(message.messageId)).None? ==> State() == old(State())
      ensures FirstIndex(old(chatItems), MessageIdKey(message.messageId)).Some? ==> State() == old(State()).(
        items := ReplaceFirst(old(chatItems), MessageIdKey(message.messageId), Msg(message)),
        updates := old(updates) + [Normal])
    {
      var index := FirstIndex(chatItems, MessageIdKey(message.messageId));
      if index.None? {
        return;
      }
      chatItems := chatItems[index.value := Msg(message)];
      updates := updates + [Normal];
    }

    /** `remove(messageId:)`: deletes the first message with the id; nothing if there is none. */
    method Remove(messageId: int)
      modifies this
      ensures FirstIndex(old(chatItems), MessageIdKey(messageId)).None? ==> State() == old(State())
      ensures FirstIndex(old(chatItems), MessageIdKey(messageId)).Some? ==> State() == old(State()).(
        items := RemoveFirst(old(chatItems), MessageIdKey(messageId)),
        updates := old(updates) + [MessageCountReduction])
    {
      var index := FirstIndex(chatItems, MessageIdKey(messageId));
      if index.None? {
        return;
      }
      chatItems := chatItems[..index.value] + chatItems[index.value + 1..];
      updates := updates + [MessageCountReduction];
    }

    /** The message observer registered by `loadInitialMessages`: received appends, updated updates, deleted removes. */
    method OnMessageEvent(event: Observers.MessageEvent)
      modifies this
      ensures event.Received? ==> State() == AppendResult(old(State()), [event.message]) && !hasMoreNext
      ensures event.Updated? ==>
                State() == if FirstIndex(old(chatItems), MessageIdKey(event.message.messageId)).None? then old(State())
                  else old(State()).(
                    items := ReplaceFirst(old(chatItems), MessageIdKey(event.message.messageId), Msg(event.message)),
                    updates := old(updates) + [Normal])
      ensures event.Deleted? ==>
                State() == if FirstIndex(old(chatItems), MessageIdKey(event.id)).None? then old(State())
                  else old(State()).(
                    items := RemoveFirst(old(chatItems), MessageIdKey(event.id)),
                    updates := old(updates) + [MessageCountReduction])
    {
      match event
      case Received(_, message) => Append([message]);
      case Updated(_, message) => Update(message);
      case Deleted(_, id) => Remove(id);
    }

    /** The read observer: a plain update, the list untouched. */
    method OnReadReceipt()
      modifies this
      ensures State() == old(State()).(updates := old(updates) + [Plain])
    {
      updates := updates + [Plain];
    }

    /** `adjustNumberOfMessages`: completes with `false` and changes nothing. */
    method AdjustNumberOfMessages(preferredMaxCount: Option<int>, focusPosition: real) returns (completion: bool)
      ensures !completion
    {
      completion := false;
    }

    /**
     * `addTextMessage`: records the current length as the message's index, issues the
     * send and appends the provisional message the SDK returns.
     */
    method AddTextMessage(text: string, provisional: Message) returns (index: nat)
      modifies this
      ensures index == |old(chatItems)|
      ensures State() == AppendResult(old(State()).(requests := old(requests) + [SendUserMessage(text)]), [provisional])
      ensures chatItems[index] == Msg(provisional)
    {
      index := |chatItems|;
      requests := requests + [SendUserMessage(text)];
      Append([provisional]);
    }

    /**
     * The send callback: a nil message is `fatalError`; otherwise the confirmed message is
     * written at the recorded index, which traps when the list has become shorter.
     */
    method CompleteTextSend(index: nat, response: Option<Message>) returns (outcome: SendOutcome)
      modifies this
      ensures response.None? ==> outcome == Crashed(SendFailed)
      ensures response.Some? && index >= |old(chatItems)| ==> outcome == Crashed(IndexOutOfRange)
      ensures outcome.Crashed? ==> State() == old(State())
      ensures response.Some? && index < |old(chatItems)| ==> outcome == Replaced && State() == old(State()).(
        items := old(chatItems)[index := Msg(response.value)], updates := old(updates) + [Plain])
    {
      if response.None? {
        return Crashed(SendFailed);
      }
      if index >= |chatItems| {
        return Crashed(IndexOutOfRange);
      }
      chatItems := chatItems[index := Msg(response.value)];
      updates := updates + [Plain];
      outcome := Replaced;
    }

    /**
     * `addPhotoMessage`: as `addTextMessage`, sending a JPEG file, followed by one more
     * plain update.
     */
    method AddPhotoMessage(provisional: Message) returns (index: nat)
      modifies this
      ensures index == |old(chatItems)|
      ensures State() == AppendResult(old(State()).(requests := old(requests) + [SendFileMessage("image/jpeg")]), [provisional]).(
        updates := AppendResult(old(State()), [provisional]).updates + [Plain])
      ensures chatItems[index] == Msg(provisional)
    {
      index := |chatItems|;
      requests := requests + [SendFileMessage("image/jpeg")];
      Append([provisional]);
      updates := updates + [Plain];
    }

    /** The photo send callback: a nil message is only logged and leaves the provisional item in place. */
    method CompletePhotoSend(index: nat, response: Option<Message>) returns (outcome: SendOutcome)
      modifies this
      ensures response.None? ==> outcome == Logged && State() == old(State())
      ensures response.Some? && index >= |old(chatItems)| ==> outcome == Crashed(IndexOutOfRange) && State() == old(State())
      ensures response.Some? && index < |old(chatItems)| ==> outcome == Replaced && State() == old(State()).(
        items := old(chatItems)[index := Msg(response.value)], updates := old(updates) + [Plain])
    {
      if response.None? {
        return Logged;
      }
      if index >= |chatItems| {
        return Crashed(IndexOutOfRange);
      }
      chatItems := chatItems[index := Msg(response.value)];
      updates := updates + [Plain];
      outcome := Replaced;
    }

    /** `resendTextMessage`: issues the resend; the list changes only in the callback. */
    method ResendTextMessage(message: Message)
      modifies this
      ensures State() == old(State()).(requests := old(requests) + [ResendUserMessage(message)])
    {
      requests := requests + [ResendUserMessage(message)];
    }

    /** The resend callback: the first user message with the same request id is overwritten. */
    method CompleteResendText(response: Option<Message>) returns (outcome: SendOutcome)
      requires response.Some? ==> response.value.content.UserContent?
      modifies this
      ensures response.None? ==> outcome == Logged && State() == old(State())
      ensures response.Some? ==> ResendResult(old(State()), UserRequestKey(response.value.content.requestId), response.value) == (outcome, State())
    {
      if response.None? {
        return Logged;
      }
      outcome := ReplaceByRequest(UserRequestKey(response.value.content.requestId), response.value);
    }

    /** `resendPhotoMessage`: issues the resend of a file message. */
    method ResendPhotoMessage(message: Message)
      modifies this
      ensures State() == old(State()).(requests := old(requests) + [ResendFileMessage(message)])
    {
      requests := requests + [ResendFileMessage(message)];
    }

    /** The photo resend callback: the first file message with the same request id is overwritten. */
    method CompleteResendPhoto(response: Option<Message>) returns (outcome: SendOutcome)
      requires response.Some? ==> response.value.content.FileContent?
      modifies this
      ensures response.None? ==> outcome == Logged && State() == old(State())
      ensures response.Some? ==> ResendResult(old(State()), FileRequestKey(response.value.content.requestId), response.value) == (outcome, State())
    {
      if response.None? {
        return Logged;
      }
      outcome := ReplaceByRequest(FileRequestKey(response.value.content.requestId), response.value);
    }

    method ReplaceByRequest(key: Key, sent: Message) returns (outcome: SendOutcome)
      modifies this
      ensures ResendResult(old(State()), key, sent) == (outcome, State())
    {
      var index := FirstIndex(chatItems, key);
      if index.None? {
        return NotFound;
      }
      chatItems := chatItems[index.value := Msg(sent)];
      updates := updates + [Plain];
      outcome := Replaced;
    }

    /**
     * Corrected send confirmation: the confirmed message replaces the item with the same
     * request id, found by search as the resend callbacks do, instead of the index recorded
     * when the send was issued. A nil message is still fatal.
     */
    method CompleteTextSendByRequest(response: Option<Message>) returns (outcome: SendOutcome)
      requires response.Some? ==> response.value.content.UserContent?
      modifies this
      ensures response.None? ==> outcome == Crashed(SendFailed) && State() == old(State())
      ensures response.Some? ==> ResendResult(old(State()), UserRequestKey(response.value.content.requestId), response.value) == (outcome, State())
    {
      if response.None? {
        return Crashed(SendFailed);
      }
      outcome := ReplaceByRequest(UserRequestKey(response.value.content.requestId), response.value);
    }

  }

  /**
   * With the corrected confirmation, the item a request id finds is still the provisional
   * message after an older page without that request id has been put in front.
   */
  lemma RequestKeyFollowsProvisional(older: seq<Item>, items: seq<Item>, key: Key, i: nat, sent: Message)
    requires i < |items| && FirstIndex(items, key) == Some(i)
    requires FirstIndex(older, key).None?
    ensures FirstIndex(older + items, key) == Some(|older| + i)
    ensures ReplaceFirst(older + items, key, Msg(sent)) == older + items[i := Msg(sent)]
  {
    var all := older + items;
    NoMatchAcross(older, items, key, i);
    assert all[|older| + i] == items[i];
    FirstIndexIsFirstMatch(all, key, |older| + i);
    var replaced := ReplaceFirst(all, key, Msg(sent));
    assert replaced == all[|older| + i := Msg(sent)];
    UpdateInSuffix(older, items, i, Msg(sent));
  }

  predicate NoMatchBefore(items: seq<Item>, key: Key, n: nat)
    requires n <= |items|
  {
    forall j :: 0 <= j < n ==> !Matches(items[j], key)
  }

  lemma FirstIndexIsFirstMatch(items: seq<Item>, key: Key, n: nat)
    requires n < |items| && NoMatchBefore(items, key, n) && Matches(items[n], key)
    ensures FirstIndex(items, key) == Some(n)
  {
    var found := FirstIndex(items, key);
    assert found.Some?;
    assert !(found.value < n);
    assert !(n < found.value);
  }

  lemma NoMatchAcross(a: seq<Item>, b: seq<Item>, key: Key, n: nat)
    requires n <= |b| && FirstIndex(a, key).None? && NoMatchBefore(b, key, n)
    ensures NoMatchBefore(a + b, key, |a| + n)
  {
    forall j | 0 <= j < |a| + n ensures !Matches((a + b)[j], key) {
      if j < |a| {
        assert (a + b)[j] == a[j];
      } else {
        assert (a + b)[j] == b[j - |a|];
      }
    }
  }

  lemma UpdateInSuffix<T>(a: seq<T>, b: seq<T>, i: nat, x: T)
    requires i < |b|
    ensures (a + b)[|a| + i := x] == a + b[i := x]
  {
  }
}
