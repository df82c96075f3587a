# ChatBird in Dafny

ChatBird is an iOS chat library that connects SendBird's chat SDK to the Chatto chat
view. This project models its core and proves properties of that model:

- **The chat data source.** `GroupChannelDataSource` keeps the ordered list of chat
  items: messages and a loader sentinel with uid `"loading"`. It pages older and newer
  messages in from the backend and merges live message events by position and by
  message id. Sends are optimistic: a provisional message is shown at once and
  overwritten when the send is confirmed. Failed messages can be resent.
  - `DataSource` models the library copy.
  - `LegacyDataSource` models the older copy at the repository root. In that copy a
    failed photo send is fatal and there is no resend.
  - Both classes are proved against one set of state transitions in `Paging`. Those
    transitions work over the list functions in `ItemList`.
- **The observer registry** (`Observers`). It is the process-wide list of channel
  delegates. Each delegate is registered under a token and may be limited to one
  channel. Each one forwards SDK callbacks to the single closure it was given.
- **Message classification** (`MessageChatto`, with the decimal rendering of ids in
  `Decimal`). It covers a message's type tag, uid, sender id, incoming flag, sending
  status and read count.
- **Decision tables.**
  - Sending-status text and colour: `SendingStatus`.
  - Name initials: `Initials`.
  - A channel row's title, preview and timestamp source: `ConversationCell`.
- **The example app's channel list** (`ChatList`). Channels are paged in by a query,
  bumped to the front by message events and inserted by user events.

Every asynchronous SDK call is split into two methods:

- one that issues it, recording it in a `requests` log;
- a `Complete…` method that runs the callback with the backend's answer, `None` standing
  for a nil result.

A callback that never runs is a `Complete…` method that is never called. This covers
`weak self` being gone, except in the two resend callbacks (see "Left out"), and a nil
page that leaves a loading flag set. Calls of the chat
view's `chatDataSourceDidUpdate` go to an append-only log of update tags. `markAsRead`
calls and table reloads are counters.

The model keeps what the code does, including these behaviours:

- `showLoading` adds a loader even when one is already shown.
- `oldestTimestamp` is assigned, not lowered.
- A nil page leaves `isLoadingPrevious` or `isLoadingNext` set for good, so later loads
  in that direction do nothing.
- A send confirmation is written at the index recorded before the provisional message
  was appended. The model says what happens when that index has moved (see Findings)
  and when it is past the end of the list. In that second case the Swift subscript
  traps, which is modelled as `Crashed(IndexOutOfRange)`.

## Model

| member | source | states |
|---|---|---|
| ItemList.Uid | ChatBird/Classes/LoaderItem.swift:15 | an item's uid is the loader uid exactly when the item is the loader |
| ItemList.Matches | ChatBird/Classes/ChatBirdDataSource.swift:122-245 | the closures at lines 122, 165, 174, 230 and 245: only the loader search can match a non-message; a user request-id search matches only user messages and a file request-id search only file messages |
| ItemList.LoaderUidMatchesOnlyLoader | ChatBird/Classes/LoaderItem.swift:15 | searching by the loader uid `"loading"` finds loaders and never a message, whose uid is a number |
| ItemList.FirstIndex | ChatBird/Classes/ChatBirdDataSource.swift:122 | the index found is the first item matching the key; none is found exactly when no item matches |
| ItemList.RemoveFirst | ChatBird/Classes/ChatBirdDataSource.swift:121-127 | removes the item at the first match and keeps the rest in order, or changes nothing when nothing matches |
| ItemList.ReplaceFirst | ChatBird/Classes/ChatBirdDataSource.swift:164-171 | overwrites the first match in place with the same length, or changes nothing when nothing matches |
| ItemList.Msgs | ChatBird/Classes/ChatBirdDataSource.swift:139 | a page becomes one message item per message, in order |
| ItemList.CountZeroIffNoMatch | ChatBird/Classes/ChatBirdDataSource.swift:122 | no item matches a key exactly when the first-match search finds nothing |
| ItemList.CountAppend | ChatBird/Classes/ChatBirdDataSource.swift:139 | the matches in two joined lists are the matches of each |
| ItemList.RemoveFirstCount | ChatBird/Classes/ChatBirdDataSource.swift:121-127 | removing the first match lowers the number of matches by one, or by none when there was none |
| ItemList.RemoveTwiceIsRemoveOnce | ChatBird/Classes/ChatBirdDataSource.swift:173-180 | removing a message id present at most once twice is the same as removing it once |
| ItemList.RemoveFirstKeepsOthers | ChatBird/Classes/ChatBirdDataSource.swift:173-180 | removal shortens the list by one; the items before the match stay where they were and those after move up by one |
| ItemList.ShowThenHide | ChatBird/Classes/ChatBirdDataSource.swift:116-127 | hiding the loader right after showing it gives back the list as it was |
| ItemList.ShowAddsALoader | ChatBird/Classes/ChatBirdDataSource.swift:116-119 | showing adds a loader whether or not one is already there: the loader count grows by one |
| ItemList.MessagesOf | ChatBird/Classes/ChatBirdDataSource.swift:42 | the messages of an item list, loaders left out, are never more than its items |
| ItemList.MessagesOfAppend | ChatBird/Classes/ChatBirdDataSource.swift:139 | the messages of joined lists are the joined messages |
| ItemList.MessagesOfMsgs | ChatBird/Classes/ChatBirdDataSource.swift:160 | the messages of a page's items are the page |
| ItemList.HideKeepsMessages | ChatBird/Classes/ChatBirdDataSource.swift:121-127 | hiding the loader removes no message and reorders none |
| ItemList.RemoveLoaderAt | ChatBird/Classes/ChatBirdDataSource.swift:124-126 | deleting a loader item at any index leaves the messages as they were |
| ItemList.SortedConcat | ChatBird/Classes/ChatBirdDataSource.swift:139 | two time-ordered lists joined where the first ends no later than the second starts are time-ordered |
| ItemList.PrependKeepsOrder | ChatBird/Classes/ChatBirdDataSource.swift:146-162 | an ordered older page put in front of ordered messages keeps them ordered; the messages become page ++ old messages |
| ItemList.AppendKeepsOrder | ChatBird/Classes/ChatBirdDataSource.swift:129-144 | an ordered newer page put after ordered messages keeps them ordered; the messages become old messages ++ page |
| ItemList.NewestAfter | ChatBird/Classes/ChatBirdDataSource.swift:137 | the new newest cursor is the larger of the page's last timestamp and the old cursor, 0 when absent |
| ItemList.NewestCoversPage | ChatBird/Classes/ChatBirdDataSource.swift:158 | for an ordered page, the new newest cursor is no earlier than any message of the page nor than the old cursor |
| ItemList.PrependMovesProvisional | ChatBird/Classes/ChatBirdDataSource.swift:186-197 | once a page is put in front, the item at a recorded index has moved on by the length of the page, and the recorded index holds a page message or an older item |
| ItemList.ConfirmInPlace | ChatBird/Classes/ChatBirdDataSource.swift:195 | when the recorded index still holds the only item with the sent request id, the write keeps the length and leaves exactly one such item |
| ItemList.UpdateKeepsOthers | ChatBird/Classes/ChatBirdDataSource.swift:164-171 | an update changes at most the first item with the message id, into the new message, and keeps the length |
| Paging.AppendResult | ChatBird/Classes/ChatBirdDataSource.swift:129-144 | an empty page changes nothing but clearing `hasMoreNext`. Otherwise `hasMoreNext` is "the page was full", the page's items follow the old items, the newest cursor is the larger of the page's last timestamp and the old cursor (0 when absent), exactly one `normal` update is sent and the channel is marked read once; no other field changes |
| Paging.PrependResult | ChatBird/Classes/ChatBirdDataSource.swift:146-162 | the first loader is removed and a plain update sent in every case. An empty page then only clears `hasMorePrevious` and leaves both cursors as they were. Otherwise `hasMorePrevious` is "the page was full", the page's items come before the remaining items, the oldest cursor is the page's first timestamp, the newest cursor is the larger of the page's last timestamp and the old cursor, and one update carries the tag; no other field changes |
| Paging.ResendResult | ChatBird/Classes/ChatBirdDataSource.swift:223-252 | a confirmed resend overwrites the first item with the request id, changes no other item and sends one plain update; with no match it reports not found and changes nothing |
| Paging.AppendKeepsHistory | ChatBird/Classes/ChatBirdDataSource.swift:129-144 | after append the shown messages are the old ones followed by the page, and the number of loaders is unchanged |
| Paging.PrependKeepsHistory | ChatBird/Classes/ChatBirdDataSource.swift:146-162 | after prepend the shown messages are the page followed by the old ones, and one loader fewer remains when there was one |
| Paging.PagesKeepOrder | ChatBird/Classes/ChatBirdDataSource.swift:129-162 | an ordered page on the correct side of what is shown keeps the shown messages in time order, for both prepend and append |
| Paging.LoaderShownThenHidden | ChatBird/Classes/ChatBirdDataSource.swift:101-114 | the loader shown by `loadPrevious` is the one its page removes: afterwards the list is the page followed by the previous items |
| Paging.StaleSendIndex | ChatBird/Classes/ChatBirdDataSource.swift:186-200 | a send into an empty list, then a one-message older page, then the confirmation: the page's message is overwritten and the provisional message stays |
| DataSource.GroupChannelDataSource.constructor | ChatBird/Classes/ChatBirdDataSource.swift:35-56 | empty list, no flags set, oldest cursor at `Int64.max`, no newest cursor, no tokens |
| DataSource.GroupChannelDataSource.LoadInitialMessages | ChatBird/Classes/ChatBirdDataSource.swift:58-85 | shows the loader, asks for the page before the oldest cursor, and registers a message observer and a read observer for this channel under two new, distinct tokens |
| DataSource.GroupChannelDataSource.CompleteInitialLoad | ChatBird/Classes/ChatBirdDataSource.swift:61-67 | a page is prepended as the first load and the channel marked read; a nil page changes nothing |
| DataSource.GroupChannelDataSource.LoadNext | ChatBird/Classes/ChatBirdDataSource.swift:87-99 | nothing while loading newer messages or before any newest cursor exists; otherwise sets the flag and asks for the page after the newest cursor |
| DataSource.GroupChannelDataSource.CompleteLoadNext | ChatBird/Classes/ChatBirdDataSource.swift:92-98 | a page is appended and the flag cleared; a nil page changes nothing, so the flag stays set |
| DataSource.GroupChannelDataSource.LoadPrevious | ChatBird/Classes/ChatBirdDataSource.swift:101-114 | single-flight: nothing while loading older messages; otherwise sets the flag, shows the loader and asks for the page before the oldest cursor |
| DataSource.GroupChannelDataSource.CompleteLoadPrevious | ChatBird/Classes/ChatBirdDataSource.swift:107-113 | a page is prepended for pagination and the flag cleared; a nil page changes nothing, so the flag stays set |
| DataSource.GroupChannelDataSource.ShowLoading | ChatBird/Classes/ChatBirdDataSource.swift:116-119 | a loader goes in front and a plain update is sent; nothing else changes |
| DataSource.GroupChannelDataSource.HideLoading | ChatBird/Classes/ChatBirdDataSource.swift:121-127 | the first item with the loader uid is removed if there is one; a plain update is sent in either case |
| DataSource.GroupChannelDataSource.Append | ChatBird/Classes/ChatBirdDataSource.swift:129-144 | an empty page only clears `hasMoreNext`. Otherwise the page goes at the end, `hasMoreNext` means "the page was full", the newest cursor rises to the page's last timestamp, one `normal` update is sent and the channel is marked read |
| DataSource.GroupChannelDataSource.Prepend | ChatBird/Classes/ChatBirdDataSource.swift:146-162 | the loader is hidden first. An empty page then only clears `hasMorePrevious`. Otherwise the page goes in front, `hasMorePrevious` means "the page was full", the oldest cursor becomes the page's first timestamp, the newest cursor rises, and one update carries the tag |
| DataSource.GroupChannelDataSource.Update | ChatBird/Classes/ChatBirdDataSource.swift:164-171 | the first message with the id is replaced in place with a `normal` update; an unknown id changes nothing and sends no update |
| DataSource.GroupChannelDataSource.Remove | ChatBird/Classes/ChatBirdDataSource.swift:173-180 | the first message with the id is deleted with a `messageCountReduction` update; an unknown id changes nothing and sends no update |
| DataSource.GroupChannelDataSource.OnMessageEvent | ChatBird/Classes/ChatBirdDataSource.swift:69-79 | received appends the message, which as a one-message page always clears `hasMoreNext`; updated updates; deleted removes |
| DataSource.GroupChannelDataSource.OnReadReceipt | ChatBird/Classes/ChatBirdDataSource.swift:81-84 | a read receipt sends a plain update and changes nothing else |
| DataSource.GroupChannelDataSource.AdjustNumberOfMessages | ChatBird/Classes/ChatBirdDataSource.swift:182-184 | completes with `false` and changes no state |
| DataSource.GroupChannelDataSource.AddTextMessage | ChatBird/Classes/ChatBirdDataSource.swift:186-200 | records the current length as the index, issues the send, and appends the provisional message, which then sits at that index |
| DataSource.GroupChannelDataSource.CompleteTextSend | ChatBird/Classes/ChatBirdDataSource.swift:189-197 | a nil message is fatal. Otherwise the confirmed message is written at the recorded index with a plain update, or the subscript traps when the list has become shorter |
| DataSource.GroupChannelDataSource.AddPhotoMessage | ChatBird/Classes/ChatBirdDataSource.swift:202-221 | as for text, sending a JPEG file, followed by one more plain update |
| DataSource.GroupChannelDataSource.CompletePhotoSend | ChatBird/Classes/ChatBirdDataSource.swift:206-216 | a nil message is only logged and leaves the provisional item in place; otherwise the write is at the recorded index, as for text |
| DataSource.GroupChannelDataSource.ResendTextMessage | ChatBird/Classes/ChatBirdDataSource.swift:223-224 | issues the resend and changes no item |
| DataSource.GroupChannelDataSource.CompleteResendText | ChatBird/Classes/ChatBirdDataSource.swift:224-236 | a nil message is logged; otherwise the first user message with the same request id is overwritten, and nothing happens when there is none |
| DataSource.GroupChannelDataSource.ResendPhotoMessage | ChatBird/Classes/ChatBirdDataSource.swift:239-240 | issues the resend of a file message and changes no item |
| DataSource.GroupChannelDataSource.CompleteResendPhoto | ChatBird/Classes/ChatBirdDataSource.swift:240-251 | a nil message is logged; otherwise the first file message with the same request id is overwritten, and nothing happens when there is none |
| DataSource.GroupChannelDataSource.ReplaceByRequest | ChatBird/Classes/ChatBirdDataSource.swift:230-235 | the request-id search and write shared by both resend callbacks |
| DataSource.GroupChannelDataSource.CompleteTextSendByRequest | ChatBird/Classes/ChatBirdDataSource.swift:186-200 | corrected confirmation: the sent message replaces the item with its request id wherever it now is; a nil message stays fatal |
| DataSource.RequestKeyFollowsProvisional | ChatBird/Classes/ChatBirdDataSource.swift:186-200 | after older items without the request id go in front, the request-id search still finds the provisional message, and the write leaves those items untouched |
| LegacyDataSource.GroupChannelDataSource.constructor | ChatBirdDataSource.swift:15-36 | empty list, no flags set, oldest cursor at `Int64.max`, no newest cursor, no tokens |
| LegacyDataSource.GroupChannelDataSource.LoadInitialMessages | ChatBirdDataSource.swift:38-65 | shows the loader, asks for the page before the oldest cursor, and registers a message observer and a read observer for the channel under two new, distinct tokens |
| LegacyDataSource.GroupChannelDataSource.CompleteInitialLoad | ChatBirdDataSource.swift:41-47 | a page is prepended as the first load and the channel marked read; a nil page changes nothing |
| LegacyDataSource.GroupChannelDataSource.LoadNext | ChatBirdDataSource.swift:67-79 | nothing while loading newer messages or without a newest cursor; otherwise sets the flag and asks for the next page |
| LegacyDataSource.GroupChannelDataSource.CompleteLoadNext | ChatBirdDataSource.swift:72-78 | a page is appended and the flag cleared; a nil page leaves the flag set |
| LegacyDataSource.GroupChannelDataSource.LoadPrevious | ChatBirdDataSource.swift:81-94 | nothing while loading older messages; otherwise sets the flag, shows the loader and asks for the previous page |
| LegacyDataSource.GroupChannelDataSource.CompleteLoadPrevious | ChatBirdDataSource.swift:87-93 | a page is prepended for pagination and the flag cleared; a nil page leaves the flag set |
| LegacyDataSource.GroupChannelDataSource.ShowLoading | ChatBirdDataSource.swift:96-99 | a loader goes in front with a plain update |
| LegacyDataSource.GroupChannelDataSource.HideLoading | ChatBirdDataSource.swift:101-107 | the first loader-uid item is removed if any; a plain update in either case |
| LegacyDataSource.GroupChannelDataSource.Append | ChatBirdDataSource.swift:109-124 | an empty page only clears `hasMoreNext`; otherwise the same tail merge, cursor rise and mark-as-read as the library copy |
| LegacyDataSource.GroupChannelDataSource.Prepend | ChatBirdDataSource.swift:126-142 | hides the loader; an empty page only clears `hasMorePrevious`; otherwise the page goes in front and the oldest cursor is set to its first timestamp |
| LegacyDataSource.GroupChannelDataSource.Update | ChatBirdDataSource.swift:144-151 | replaces the first message with the id; an unknown id is a no-op without update |
| LegacyDataSource.GroupChannelDataSource.Remove | ChatBirdDataSource.swift:153-160 | deletes the first message with the id with a `messageCountReduction` update; an unknown id is a no-op |
| LegacyDataSource.GroupChannelDataSource.OnMessageEvent | ChatBirdDataSource.swift:49-59 | received appends, updated updates, deleted removes |
| LegacyDataSource.GroupChannelDataSource.OnReadReceipt | ChatBirdDataSource.swift:61-64 | a plain update only |
| LegacyDataSource.GroupChannelDataSource.AdjustNumberOfMessages | ChatBirdDataSource.swift:162-164 | completes with `false` and changes no state |
| LegacyDataSource.GroupChannelDataSource.AddTextMessage | ChatBirdDataSource.swift:166-180 | records the index, issues the send and appends the provisional message at that index |
| LegacyDataSource.GroupChannelDataSource.CompleteTextSend | ChatBirdDataSource.swift:169-176 | a nil message is fatal; otherwise a write at the recorded index, which traps past the end |
| LegacyDataSource.GroupChannelDataSource.AddPhotoMessage | ChatBirdDataSource.swift:182-201 | as for text, with a JPEG file send and one more plain update |
| LegacyDataSource.GroupChannelDataSource.CompletePhotoSend | ChatBirdDataSource.swift:186-194 | a nil message is fatal, unlike the library copy; otherwise a write at the recorded index |
| Observers.PassesFilter | ChatBird/Classes/SBDMain+Observers.swift:38-71 | a delegate without a filter passes every callback; one with a filter passes only callbacks from that channel |
| Observers.Translate | ChatBird/Classes/SBDMain+Observers.swift:48-71 | didReceive, didUpdate and messageWasDeleted become the matching message event; join and leave both become a user update |
| Observers.TranslateKeeps | ChatBird/Classes/SBDMain+Observers.swift:38-71 | translation loses nothing of a message callback; it merges a join and a leave of the same user; it keeps only the kind of a typing or read callback |
| Observers.Forward | ChatBird/Classes/SBDMain+Observers.swift:38-71 | a callback passes exactly when the delegate has no filter or the sender's url equals it, and then it is translated |
| Observers.Observe | ChatBird/Classes/SBDMain+Observers.swift:29 | the registered observer is called exactly for forwarded callbacks that reach its own closure; the other closures are no-ops |
| Observers.ObserversSeeOnlyTheirEvents | ChatBird/Classes/SBDMain+Observers.swift:80-96 | a read observer sees only read receipts, a message observer only message events, a user observer only joins and leaves |
| Observers.RemoveAll | ChatBird/Classes/SBDMain+Observers.swift:104 | keeps exactly the delegates under other tokens, and the removed token is gone |
| Observers.RemoveAllDistributes | ChatBird/Classes/SBDMain+Observers.swift:104 | removal works on each part of the list separately, so the kept delegates stay in order |
| Observers.RemoveUnknownToken | ChatBird/Classes/SBDMain+Observers.swift:102-105 | removing a token that was never issued leaves the list unchanged |
| Observers.AddThenRemove | ChatBird/Classes/SBDMain+Observers.swift:78-105 | removing the token just added gives back the previous list |
| Observers.Registry.constructor | ChatBird/Classes/SBDMain+Observers.swift:76 | the registry starts empty |
| Observers.Registry.Add | ChatBird/Classes/SBDMain+Observers.swift:79-83 | appends one delegate under a token not in use and returns that token |
| Observers.Registry.AddRead | ChatBird/Classes/SBDMain+Observers.swift:78-84 | appends one read-receipt delegate with the channel filter under a fresh token |
| Observers.Registry.AddMessage | ChatBird/Classes/SBDMain+Observers.swift:86-92 | appends one message delegate with the channel filter under a fresh token |
| Observers.Registry.AddUser | ChatBird/Classes/SBDMain+Observers.swift:94-100 | appends one user delegate with the channel filter under a fresh token |
| Observers.Registry.Remove | ChatBird/Classes/SBDMain+Observers.swift:102-105 | drops every delegate under the token; an unknown token changes nothing |
| MessageChatto.MessageType.RawValue | ChatBird/Classes/SBDBaseMessage+Chatto.swift:13-17 | the raw value is one of "text", "photo" and "admin" |
| MessageChatto.MessageTypeOf | ChatBird/Classes/SBDBaseMessage+Chatto.swift:20-31 | user maps to text, file to photo and admin to admin, each if and only if; any other message is fatal (`None`) |
| MessageChatto.ItemType | ChatBird/Classes/SBDBaseMessage+Chatto.swift:35-37 | the chat item type is "text", "photo" or "admin", each for exactly its kind of message |
| MessageChatto.Uid | ChatBird/Classes/SBDBaseMessage+Chatto.swift:39-41 | the uid reads back as the message id, so it is the id's decimal text |
| MessageChatto.UidDeterminesId | ChatBird/Classes/SBDBaseMessage+Chatto.swift:39-41 | two messages have equal uids exactly when they have equal ids |
| MessageChatto.UidHasNoLetter | ChatBird/Classes/SBDBaseMessage+Chatto.swift:39-41 | a uid never equals a string containing a lower-case letter, such as the loader's uid |
| MessageChatto.SenderId | ChatBird/Classes/SBDBaseMessage+Chatto.swift:55-63 | "admin" for admin messages; the sender's id or "no-sender" for user and file messages; "unknown" otherwise |
| MessageChatto.IsIncoming | ChatBird/Classes/SBDBaseMessage+Chatto.swift:65-75 | admin and other non-user messages are incoming; a user or file message without a sender is outgoing; with nobody logged in, a user or file message is incoming exactly when it has a sender |
| MessageChatto.OutgoingIffOwnOrSenderless | ChatBird/Classes/SBDBaseMessage+Chatto.swift:65-75 | a message is outgoing exactly when it is a user or file message and either has no sender or was sent by the current user |
| MessageChatto.Status | ChatBird/Classes/SBDBaseMessage+Chatto.swift:81-96 | sending for none or pending, failed for failed, success otherwise, each if and only if; non-user messages are always success |
| MessageChatto.ReadCount | ChatBird/Classes/SBDBaseMessage+Chatto.swift:98-100 | (members − 1) − read receipt, defined exactly when both conversions and the subtraction fit in `Int32`, and never trapping for counts in range |
| Decimal.NatToString | ChatBird/Classes/SBDBaseMessage+Chatto.swift:40 | the decimal text of a natural number is non-empty digits, one digit exactly below 10 |
| Decimal.IntToString | ChatBird/Classes/SBDBaseMessage+Chatto.swift:40 | the decimal text of an integer is non-empty, made of digits and a leading minus sign exactly for negative numbers |
| Decimal.ParseIntToString | ChatBird/Classes/SBDBaseMessage+Chatto.swift:40 | reading back the decimal text of an integer gives the integer |
| Decimal.IntToStringInjective | ChatBird/Classes/SBDBaseMessage+Chatto.swift:40 | different integers have different decimal texts |
| Decimal.ParseNatToString | ChatBird/Classes/SBDBaseMessage+Chatto.swift:40 | reading back the digits of a natural number gives the number |
| SendingStatus.CanHandleChatItem | ChatBird/Classes/SendingStatusPresenter.swift:59-61 | true exactly for a sending-status model, whose item type is "decoration-status" |
| SendingStatus.StatusText | ChatBird/Classes/SendingStatusPresenter.swift:110-125 | "Sending failed" exactly for failed; "Sending..." exactly for sending; "Sent" exactly for success unseen; "Read" exactly for success seen one-to-one; "Read by N participant(s)" for a seen group |
| SendingStatus.ReadByTextInjective | ChatBird/Classes/SendingStatusPresenter.swift:120 | different seen counts give different "Read by" texts |
| SendingStatus.TextColor | ChatBird/Classes/SendingStatusPresenter.swift:101-104 | red exactly for failed, gray otherwise |
| SendingStatus.RedIffRequestFailed | ChatBird/Classes/SendingStatusPresenter.swift:103 | a message's status shows red exactly when it is a user or file message whose request failed |
| Initials.Upper | ChatBird/Classes/Utils.swift:68 | upper-casing keeps the length and acts letter by letter |
| Initials.Components | ChatBird/Classes/Utils.swift:68 | splitting on non-letters gives at least one piece, each made only of letters |
| Initials.RemoveEmpty | ChatBird/Classes/Utils.swift:69 | no empty piece remains and none is added |
| Initials.InitialsFor | ChatBird/Classes/Utils.swift:66-73 | at most two characters; empty exactly when there is no letter run; two exactly when there are at least two runs; the first and last runs give them |
| Initials.ConcatComponents | ChatBird/Classes/Utils.swift:68 | the pieces together are exactly the letters of the name |
| Initials.ConcatRemoveEmpty | ChatBird/Classes/Utils.swift:69 | dropping empty pieces drops no letter |
| Initials.RunsAreTheLetters | ChatBird/Classes/Utils.swift:68-69 | the runs together are the name's letters, and there are no runs exactly when there are no letters |
| Initials.LettersUpper | ChatBird/Classes/Utils.swift:68 | the letters of the upper-cased name are the upper-cased letters |
| Initials.InitialsEmptyIffNoLetter | ChatBird/Classes/Utils.swift:68-73 | the initials are empty exactly when the name has no letter |
| Initials.FirstInitialIsFirstLetter | ChatBird/Classes/Utils.swift:71 | the first initial is the upper-cased first letter of the name |
| Initials.TwoRunsIffSeparated | ChatBird/Classes/Utils.swift:68-72 | there are two runs or more exactly when two letters are separated by a non-letter |
| Initials.SeparatedUpper | ChatBird/Classes/Utils.swift:68 | upper-casing neither joins nor splits letter runs |
| Initials.LastRunStart | ChatBird/Classes/Utils.swift:68-69 | the last letter run begins where the name's last word begins: a letter after a non-letter (or at the start) with no word starting later |
| Initials.LastInitialIsLastWordStart | ChatBird/Classes/Utils.swift:71-72 | for a name of two words or more, the second initial is the upper-cased first letter of its last word |
| Initials.InitialsLength | ChatBird/Classes/Utils.swift:71-73 | two initials exactly when two letters are separated by a non-letter; one exactly when there are letters that form a single run |
| ChatList.IndexOfUrl | Example/ChatBird/ChatListController.swift:91 | the index found is the first channel with the url; none exactly when no channel has it |
| ChatList.Swap | Example/ChatBird/ChatListController.swift:92 | exchanges the two positions and keeps every other position |
| ChatList.SwapIsPermutation | Example/ChatBird/ChatListController.swift:92 | a swap keeps the same channels, each as often as before |
| ChatList.Updated | Example/ChatBird/ChatListController.swift:88-100 | a non-group channel leaves the list; otherwise the channel's url is in front and the list grows by one exactly when the url was not listed |
| ChatList.UpdatedBringsToFront | Example/ChatBird/ChatListController.swift:88-100 | a group channel's url ends up in front; a known url gives a permutation of the same length; an unknown one is inserted in front; unique urls stay unique |
| ChatList.InsertIfAbsent | Example/ChatBird/ChatListController.swift:151-153 | the listed channels stay, in order, behind at most one new channel, and the channel's url is listed afterwards |
| ChatList.InsertIfAbsentNeverDuplicates | Example/ChatBird/ChatListController.swift:151-153 | after a user event the channel is listed; unique urls stay unique; a second event for the same channel changes nothing |
| ChatList.RemoveIfSet | Example/ChatBird/ChatListController.swift:16-21 | a set token's delegates are all gone and only they are; an unset token changes nothing |
| ChatList.ChatListController.constructor | Example/ChatBird/ChatListController.swift:27-30 | no channels, no query and no tokens |
| ChatList.ChatListController.ViewDidLoad | Example/ChatBird/ChatListController.swift:32-40 | without a current user nothing happens; otherwise a refresh load, then an unfiltered message observer and an unfiltered user observer under distinct new tokens |
| ChatList.ChatListController.LoadChannels | Example/ChatBird/ChatListController.swift:47-62 | a refresh drops the query; a missing query is replaced by a new one; a page is asked for only when the query reports a next one |
| ChatList.ChatListController.LoadResult | Example/ChatBird/ChatListController.swift:47-62 | the channels are kept, a query exists afterwards, and the request log grows by at most one page request |
| ChatList.ChatListController.LoadAsksAtMostOnePage | Example/ChatBird/ChatListController.swift:47-62 | a load keeps the channels and asks for at most one page; a refresh always asks a new query; a kept query without a next page changes nothing |
| ChatList.ChatListController.CompleteLoadChannels | Example/ChatBird/ChatListController.swift:62-80 | the page callback, as `PageResult` states |
| ChatList.ChatListController.PageResult | Example/ChatBird/ChatListController.swift:62-75 | a refresh empties the list and a page is appended to it, or the page is appended to the existing list; the table reloads; the no-content view is hidden exactly when channels remain |
| ChatList.ChatListController.UpdateChannel | Example/ChatBird/ChatListController.swift:88-100 | a non-group channel changes nothing; otherwise the list becomes `Updated` of the channel and the table reloads |
| ChatList.ChatListController.OnMessageEvent | Example/ChatBird/ChatListController.swift:132-144 | every kind of message event updates the event's channel |
| ChatList.ChatListController.OnUserEvent | Example/ChatBird/ChatListController.swift:147-157 | the channel goes in front unless its url is listed; the table reloads |
| ChatList.ChatListController.CheckNoContent | Example/ChatBird/ChatListController.swift:102-104 | the no-content view is hidden exactly when the list is non-empty |
| ChatList.ChatListController.CellForRow | Example/ChatBird/ChatListController.swift:110-118 | the row's channel is shown; showing the last row makes a non-refresh load, any other row changes nothing |
| ChatList.ChatListController.Deinit | Example/ChatBird/ChatListController.swift:15-22 | removes the delegates of each token that was set, and no others |
| ConversationCell.Title | Example/ChatBird/ConversationListTableViewCell.swift:68 | the name when it is non-empty, the member list otherwise; empty only when both are |
| ConversationCell.FileKindPreview | Example/ChatBird/ConversationListTableViewCell.swift:78-90 | the preview is one of the four file previews, and Photo for an "image" type |
| ConversationCell.KindPrefixesExclusive | Example/ChatBird/ConversationListTableViewCell.swift:79-90 | no MIME type starts with two of "image", "video" and "audio" |
| ConversationCell.FilePreviewByPrefix | Example/ChatBird/ConversationListTableViewCell.swift:78-90 | a file shows Photo, Video or Audio exactly when its type starts with "image", "video" or "audio"; it shows File exactly when it starts with none of them |
| ConversationCell.Preview | Example/ChatBird/ConversationListTableViewCell.swift:71-97 | empty without a last message; the text of an admin or user message, or empty when it has none; one of the four file previews for a file; the label is left unchanged exactly for any other kind |
| ConversationCell.TimestampSource | Example/ChatBird/ConversationListTableViewCell.swift:92-97 | the last message's time, or the channel's creation time when there is no last message |

## Left out

- UIKit is not modelled. This covers cells, presenters, avatar views, image viewers,
  view controllers, segues and the table view. `reloadData` is a counter and
  `noContentView.isHidden` is a flag.
- Example/ChatBird/ConversationListController.swift is not part of this model. It is an
  unfinished skeleton with empty bodies.
- SendBird SDK calls that fetch pages, send or resend are recorded in the `requests`
  log, and their answers are parameters of the `Complete…` methods. `markAsRead` is the
  `markAsReadCalls` counter. The model keeps none of the SDK's own state except the
  query's `hasNext`.
- `SBDMain.add` and `SBDMain.removeChannelDelegate` are not recorded. The model keeps
  only the library's own static delegate list, `Observers.Registry.delegates`, and takes
  the SDK to deliver callbacks to exactly the delegates in that list.
- A message's `requestId` is taken to be always present. A nil `requestId` would make
  the request-id comparison of the resend callbacks match items that are not messages
  of that kind; that case is not modelled.
- Error values are not modelled. Only whether a result was nil is.
- DataSource.GroupChannelDataSource.CompletePhotoSend: a nil message is modelled as only
  logged. The log line force-unwraps the error, so a nil message that comes with a nil
  error would trap; that case is not modelled.
- DataSource.GroupChannelDataSource.CompleteResendText: a nil message is modelled as only
  logged; a nil message with a nil error would trap on the force-unwrapped error, and
  that case is not modelled. The callback also takes the logging branch when `self` is
  gone (ChatBird/Classes/ChatBirdDataSource.swift:225), so a resend that succeeds after
  the data source is released traps on the nil error; the model has no released data
  source, so that trap is not modelled either.
- DataSource.GroupChannelDataSource.CompleteResendPhoto: the same two traps as for text
  (ChatBird/Classes/ChatBirdDataSource.swift:241) are not modelled.
- Threads are not modelled: `DispatchQueue.main.async`, `weak self` captures, and
  callbacks that arrive concurrently. Main-queue work runs inside the callback that
  schedules it.
- A callback whose `self` is gone is a `Complete…` method that is never called. This is
  what the page, send and observer callbacks do: they return first when `self` is gone.
  The two resend callbacks do not; they trap, as the lines above say.
- Floating-point work is not modelled. This covers message dates (`createdAt / 1000`),
  `stringForTime`, image resizing and JPEG data, and transfer progress. Timestamps stay
  integer milliseconds.
- Photo sends do not model the image itself, `message.image = image` or the random
  file name. A photo send is a file send of type `image/jpeg`.
- Message ids and timestamps are unbounded integers. Int64 overflow is not modelled.
  `Int64.max` appears only as the oldest cursor's starting value.
- `pageSize` is a `var` that no code reassigns. It is the constant `Paging.PageSize`.
- `ChannelObservervation` UUIDs come from a counter inside the registry. This keeps the
  one property the code relies on: a new token differs from every token in use.
- Initials: `uppercased()` and `CharacterSet.letters` are Unicode-wide in Swift. The
  model uses ASCII letters and ASCII upper-casing.
- `NSLocalizedString` is the identity. `String(format: "%d")` is the decimal text of
  the number.
- `SBDGroupChannel` equality in `firstIndex(of:)` is modelled as equal channel urls.
  The SDK's `isEqual` is not part of this model.
- A new channel-list query is taken to report a next page. That value comes from the
  SDK. The query's order, limit and membership settings are not modelled.
- The row-selection segue and `prepare(for:sender:)` are not modelled. They are
  navigation only.
- `SBDMain.getCurrentUser()` is a parameter: the current user's id in `IsIncoming` and
  the current user in `ViewDidLoad`.
- `status` traps on an unknown request state (`@unknown default`). Request states are
  a closed datatype here, so that case does not arise.

## Findings

| source | as written | input that shows it | evidently intended | confidence | as-written member | corrected member |
|---|---|---|---|---|---|---|
| ChatBird/Classes/ChatBirdDataSource.swift:186-200 | the send confirmation writes the confirmed message at the index recorded before the provisional message was appended | send a text into an empty list; an older one-message page is prepended before the confirmation arrives; the confirmation overwrites that older message and the provisional message stays in the list | replace the provisional message wherever it now is, found by request id as the resend callbacks do | not executed; likely | Paging.StaleSendIndex | DataSource.GroupChannelDataSource.CompleteTextSendByRequest |
