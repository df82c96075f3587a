/**
 * The state of a `GroupChannelDataSource` as one value, and what its list operations do
 * to it. Both copies of the data source (ChatBird/Classes/ChatBirdDataSource.swift and the
 * older ChatBirdDataSource.swift at the repository root) are proved against these.
 */
module Paging {
  import opened Wrappers
  import opened Sdk
  import opened ItemList

  /** `pageSize`: the number of messages asked for per page. */
  const PageSize: int := 20

  /**
   * Everything a `GroupChannelDataSource` holds or has done, as one value: the item list,
   * the paging flags and cursors, the observer tokens, and the log of delegate
   * notifications, `markAsRead` calls and backend requests.
   */
  datatype SourceState = SourceState(
    items: seq<Item>,
    hasMorePrevious: bool,
    hasMoreNext: bool,
    isLoadingPrevious: bool,
    isLoadingNext: bool,
    oldestTimestamp: int,
    newestTimestamp: Option<int>,
    observerToken: Option<nat>,
    readObserverToken: Option<nat>,
    updates: seq<UpdateTag>,
    markAsReadCalls: nat,
    requests: seq<Request>)

  /**
   * What `append(messages:)` does to the state: an empty page only clears `hasMoreNext`;
   * otherwise the page goes at the end, `hasMoreNext` is "the page was full", the newest
   * cursor moves to the page's last timestamp if later, one `normal` update is sent and
   * the channel is marked read.
   */
  function AppendResult(s: SourceState, page: seq<Message>): (r: SourceState)
    ensures r.hasMoreNext <==> |page| >= PageSize
    ensures |r.items| == |s.items| + |page| && r.items[..|s.items|] == s.items
    ensures r.markAsReadCalls == s.markAsReadCalls + (if page == [] then 0 else 1)
    ensures page == [] ==> r == s.(hasMoreNext := false)
    ensures page != [] ==> r.newestTimestamp == Some(NewestAfter(page, s.newestTimestamp))
    ensures r.items[|s.items|..] == Msgs(page)
    ensures r.updates == s.updates + (if page == [] then [] else [Normal])
    ensures r == s.(hasMoreNext := r.hasMoreNext, newestTimestamp := r.newestTimestamp, items := r.items,
                    updates := r.updates, markAsReadCalls := r.markAsReadCalls)
  {
    if page == [] then s.(hasMoreNext := false)
    else s.(
      hasMoreNext := |page| >= PageSize,
      newestTimestamp := Some(NewestAfter(page, s.newestTimestamp)),
      items := s.items + Msgs(page),
      updates := s.updates + [Normal],
      markAsReadCalls := s.markAsReadCalls + 1)
  }

  /**
   * What `prepend(messages:updateType:)` does: the loader is hidden first in every case;
   * an empty page then only clears `hasMorePrevious`; otherwise the page goes in front,
   * `hasMorePrevious` is "the page was full", the oldest cursor is set to the page's
   * first timestamp (assigned, not the minimum), the newest cursor moves to the page's
   * last timestamp if later, and one update carries the given tag.
   */
  function PrependResult(s: SourceState, page: seq<Message>, tag: UpdateTag): (r: SourceState)
    ensures r.hasMorePrevious <==> |page| >= PageSize
    ensures |r.items| == |page| + |s.items| - (if FirstIndex(s.items, LoaderKey).Some? then 1 else 0)
    ensures r.items[..|page|] == Msgs(page)
    ensures r.items[|page|..] == RemoveFirst(s.items, LoaderKey)
    ensures page != [] ==> r.oldestTimestamp == page[0].createdAt
    ensures page != [] ==> r.newestTimestamp == Some(NewestAfter(page, s.newestTimestamp))
    ensures page == [] ==> r.oldestTimestamp == s.oldestTimestamp && r.newestTimestamp == s.newestTimestamp
    ensures r.updates == s.updates + [Plain] + (if page == [] then [] else [tag])
    ensures r == s.(hasMorePrevious := r.hasMorePrevious, oldestTimestamp := r.oldestTimestamp,
                    newestTimestamp := r.newestTimestamp, items := r.items, updates := r.updates)
  {
    var hidden := s.(items := RemoveFirst(s.items, LoaderKey), updates := s.updates + [Plain]);
    if page == [] then hidden.(hasMorePrevious := false)
    else hidden.(
      items := Msgs(page) + hidden.items,
      updates := hidden.updates + [tag],
      hasMorePrevious := |page| >= PageSize,
      oldestTimestamp := page[0].createdAt,
      newestTimestamp := Some(NewestAfter(page, s.newestTimestamp)))
  }

  /**
   * What a confirmed resend does: the first item matching the request key is replaced
   * by the confirmed message with a plain update; with no match nothing changes.
   */
  function ResendResult(s: SourceState, key: Key, sent: Message): (r: (SendOutcome, SourceState))
    ensures r.0 == Replaced <==> FirstIndex(s.items, key).Some?
    ensures r.0 != Replaced ==> r == (NotFound, s)
    ensures |r.1.items| == |s.items|
    ensures r.0 == Replaced ==> r.1.items[FirstIndex(s.items, key).value] == Msg(sent)
    ensures forall j :: 0 <= j < |s.items| && r.1.items[j] != s.items[j] ==> FirstIndex(s.items, key) == Some(j)
    ensures r.1 == s.(items := r.1.items, updates := r.1.updates)
    ensures r.1.updates == s.updates + if r.0 == Replaced then [Plain] else []
  {
    match FirstIndex(s.items, key)
    case None => (NotFound, s)
    case Some(_) => (Replaced, s.(items := ReplaceFirst(s.items, key, Msg(sent)), updates := s.updates + [Plain]))
  }

  /** `append(messages:)` adds the page after the messages already shown, in order. */
  lemma AppendKeepsHistory(s: SourceState, page: seq<Message>)
    ensures MessagesOf(AppendResult(s, page).items) == MessagesOf(s.items) + page
    ensures Count(AppendResult(s, page).items, LoaderKey) == Count(s.items, LoaderKey)
  {
    MessagesOfAppend(s.items, Msgs(page));
    MessagesOfMsgs(page);
    CountAppend(s.items, Msgs(page), LoaderKey);
    CountZeroIffNoMatch(Msgs(page), LoaderKey);
  }

  /**
   * `prepend(messages:updateType:)` puts the page before the messages already shown and
   * removes one loader, if there is one.
   */
  lemma PrependKeepsHistory(s: SourceState, page: seq<Message>, tag: UpdateTag)
    ensures MessagesOf(PrependResult(s, page, tag).items) == page + MessagesOf(s.items)
    ensures Count(PrependResult(s, page, tag).items, LoaderKey) ==
            if Count(s.items, LoaderKey) > 0 then Count(s.items, LoaderKey) - 1 else 0
  {
    var hidden := RemoveFirst(s.items, LoaderKey);
    HideKeepsMessages(s.items);
    MessagesOfAppend(Msgs(page), hidden);
    MessagesOfMsgs(page);
    RemoveFirstCount(s.items, LoaderKey);
    CountAppend(Msgs(page), hidden, LoaderKey);
    CountZeroIffNoMatch(Msgs(page), LoaderKey);
  }

  /**
   * Both kinds of page keep the shown messages in time order when the page is in order
   * and lies on the right side of what is shown.
   */
  lemma PagesKeepOrder(s: SourceState, page: seq<Message>, tag: UpdateTag)
    requires SortedByTime(page) && SortedByTime(MessagesOf(s.items))
    ensures page != [] && MessagesOf(s.items) != [] && page[|page| - 1].createdAt <= MessagesOf(s.items)[0].createdAt ==>
              SortedByTime(MessagesOf(PrependResult(s, page, tag).items))
    ensures page != [] && MessagesOf(s.items) != [] && MessagesOf(s.items)[|MessagesOf(s.items)| - 1].createdAt <= page[0].createdAt ==>
              SortedByTime(MessagesOf(AppendResult(s, page).items))
  {
    if page != [] && MessagesOf(s.items) != [] {
      if page[|page| - 1].createdAt <= MessagesOf(s.items)[0].createdAt {
        PrependKeepsOrder(page, s.items);
      }
      if MessagesOf(s.items)[|MessagesOf(s.items)| - 1].createdAt <= page[0].createdAt {
        AppendKeepsOrder(s.items, page);
      }
    }
  }

  /**
   * The loader `loadPrevious` shows is the one its page removes: showing and then
   * prepending leaves exactly the page in front of the previous items.
   */
  lemma LoaderShownThenHidden(s: SourceState, page: seq<Message>, tag: UpdateTag)
    ensures PrependResult(s.(items := [Loader] + s.items, updates := s.updates + [Plain]), page, tag).items ==
            Msgs(page) + s.items
  {
    ShowThenHide(s.items);
  }

  /**
   * The index recorded by `addTextMessage` goes stale once an older page arrives before
   * the confirmation: with one provisional message and a one-message page, the
   * confirmation overwrites the page's message and the provisional one stays.
   */
  lemma StaleSendIndex(s: SourceState, provisional: Message, older: Message, sent: Message)
    requires s.items == []
    ensures var afterSend := AppendResult(s, [provisional]);
            var afterPage := PrependResult(afterSend, [older], Pagination);
            |afterSend.items| == 1 && afterSend.items[0] == Msg(provisional) &&
            afterPage.items[0 := Msg(sent)] == [Msg(sent), Msg(provisional)]
  {
    var afterSend := AppendResult(s, [provisional]);
    assert afterSend.items == [Msg(provisional)];
    assert FirstIndex(afterSend.items, LoaderKey).None?;
  }
}
