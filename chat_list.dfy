/**
 * The example app's channel list (Example/ChatBird/ChatListController.swift): an array of
 * channels filled page by page from a channel-list query, and kept current by message
 * and user events. The table view, the segues and the main-queue hops are not modelled;
 * each asynchronous query page is split into `LoadChannels` and `CompleteLoadChannels`.
 */
module ChatList {
  import opened Wrappers
  import opened Sdk
  import Observers

  /** `SBDGroupChannelListQuery`: which query this is, and whether it reports a next page. */
  datatype ChannelQuery = ChannelQuery(id: nat, hasNext: bool)

  /** A `loadNextPage` call: the query it went to and whether it was a refresh. */
  datatype PageRequest = PageRequest(queryId: nat, refresh: bool)

  /** Everything the controller holds or has done, as one value. */
  datatype ListState = ListState(
    channels: seq<Channel>,
    query: Option<ChannelQuery>,
    queriesCreated: nat,
    messageToken: Option<Observers.Token>,
    userToken: Option<Observers.Token>,
    noContentHidden: bool,
    reloads: nat,
    requests: seq<PageRequest>)

  /** `firstIndex(where: { $0.channelUrl == url })`. */
  function IndexOfUrl(channels: seq<Channel>, url: string): (r: Option<nat>)
    ensures r.Some? ==> r.value < |channels| && channels[r.value].channelUrl == url
    ensures r.Some? ==> forall j :: 0 <= j < r.value ==> channels[j].channelUrl != url
    ensures r.None? <==> forall j :: 0 <= j < |channels| ==> channels[j].channelUrl != url
  {
    if channels == [] then None
    else if channels[0].channelUrl == url then Some(0)
    else match IndexOfUrl(channels[1..], url)
      case None => None
      case Some(i) => Some(i + 1)
  }

  /** `swapAt(i, j)`. */
  function Swap<T>(s: seq<T>, i: nat, j: nat): (r: seq<T>)
    requires i < |s| && j < |s|
    ensures |r| == |s| && r[i] == s[j] && r[j] == s[i]
    ensures forall k :: 0 <= k < |s| && k != i && k != j ==> r[k] == s[k]
  {
    s[i := s[j]][j := s[i]]
  }

  /** A swap only reorders: the same channels, each as often as before. */
  lemma SwapIsPermutation<T>(s: seq<T>, i: nat, j: nat)
    requires i < |s| && j < |s|
    ensures multiset(Swap(s, i, j)) == multiset(s)
  {
    var t := s[i := s[j]];
    assert multiset(t) == multiset(s) - multiset{s[i]} + multiset{s[j]};
    assert multiset(t[j := s[i]]) == multiset(t) - multiset{t[j]} + multiset{s[i]};
  }

  /**
   * What `updateChannel` does to the list: a non-group channel is ignored; a known url
   * swaps that entry with the first one (the entry kept is the one already in the list);
   * an unknown url puts the channel in front.
   */
  function Updated(channels: seq<Channel>, channel: Channel): (r: seq<Channel>)
    ensures !channel.isGroup ==> r == channels
    ensures channel.isGroup ==> |r| > 0 && r[0].channelUrl == channel.channelUrl
    ensures channel.isGroup ==> |r| == |channels| + (if IndexOfUrl(channels, channel.channelUrl).None? then 1 else 0)
  {
    if !channel.isGroup then channels
    else match IndexOfUrl(channels, channel.channelUrl)
      case Some(i) => Swap(channels, 0, i)
      case None => [channel] + channels
  }

  /** No two channels in the list share a url. */
  predicate UniqueUrls(channels: seq<Channel>) {
    forall i, j :: 0 <= i < j < |channels| ==> channels[i].channelUrl != channels[j].channelUrl
  }

  /**
   * `updateChannel` brings the channel's url to the front. A known url keeps the list a
   * permutation of itself; an unknown one grows it by the channel; urls stay unique.
   */
  lemma UpdatedBringsToFront(channels: seq<Channel>, channel: Channel)
    requires channel.isGroup
    ensures var r := Updated(channels, channel);
      |r| > 0 && r[0].channelUrl == channel.channelUrl
    ensures IndexOfUrl(channels, channel.channelUrl).Some? ==>
      |Updated(channels, channel)| == |channels| && multiset(Updated(channels, channel)) == multiset(channels)
    ensures IndexOfUrl(channels, channel.channelUrl).None? ==>
      Updated(channels, channel) == [channel] + channels
    ensures UniqueUrls(channels) ==> UniqueUrls(Updated(channels, channel))
  {
    match IndexOfUrl(channels, channel.channelUrl)
    case Some(i) =>
      SwapIsPermutation(channels, 0, i);
      var r := Swap(channels, 0, i);
      if UniqueUrls(channels) {
        forall a, b | 0 <= a < b < |r| ensures r[a].channelUrl != r[b].channelUrl {
          var a' := if a == 0 then i else if a == i then 0 else a;
          var b' := if b == 0 then i else if b == i then 0 else b;
          assert r[a] == channels[a'] && r[b] == channels[b'];
          assert a' != b';
        }
      }
    case None =>
      var r := [channel] + channels;
      if UniqueUrls(channels) {
        forall a, b | 0 <= a < b < |r| ensures r[a].channelUrl != r[b].channelUrl {
          assert r[b] == channels[b - 1];
          if a > 0 {
            assert r[a] == channels[a - 1];
          }
        }
      }
  }

  /** What the user observer does: the channel goes in front unless its url is already listed. */
  function InsertIfAbsent(channels: seq<Channel>, channel: Channel): (r: seq<Channel>)
    ensures |channels| <= |r| <= |channels| + 1 && r[|r| - |channels|..] == channels
    ensures IndexOfUrl(r, channel.channelUrl).Some?
  {
    if IndexOfUrl(channels, channel.channelUrl).None? then [channel] + channels else channels
  }

  /** User events never duplicate a channel, and a second event for it changes nothing. */
  lemma InsertIfAbsentNeverDuplicates(channels: seq<Channel>, channel: Channel)
    ensures IndexOfUrl(InsertIfAbsent(channels, channel), channel.channelUrl).Some?
    ensures UniqueUrls(channels) ==> UniqueUrls(InsertIfAbsent(channels, channel))
    ensures InsertIfAbsent(InsertIfAbsent(channels, channel), channel) == InsertIfAbsent(channels, channel)
  {
    var r := InsertIfAbsent(channels, channel);
    if IndexOfUrl(channels, channel.channelUrl).None? {
      assert r[0].channelUrl == channel.channelUrl;
      if UniqueUrls(channels) {
        forall a, b | 0 <= a < b < |r| ensures r[a].channelUrl != r[b].channelUrl {
          assert r[b] == channels[b - 1];
          if a > 0 {
            assert r[a] == channels[a - 1];
          }
        }
      }
    }
  }

  class ChatListController {
    const registry: Observers.Registry

    var channels: seq<Channel>
    var query: Option<ChannelQuery>
    /** How many channel-list queries have been created; the next one gets this id. */
    var queriesCreated: nat
    var messageToken: Option<Observers.Token>
    var userToken: Option<Observers.Token>
    /** `noContentView.isHidden`. */
    var noContentHidden: bool
    /** Calls of `tableView.reloadData()`. */
    var reloads: nat
    /** `loadNextPage` calls. */
    var requests: seq<PageRequest>

    function State(): ListState
      reads this
    {
      ListState(channels, query, queriesCreated, messageToken, userToken, noContentHidden, reloads, requests)
    }

    constructor (registry: Observers.Registry)
      ensures this.registry == registry
      ensures State() == ListState([], None, 0, None, None, false, 0, [])
    {
      this.registry := registry;
      channels := [];
      query := None;
      queriesCreated := 0;
      messageToken, userToken := None, None;
      noContentHidden := false;
      reloads := 0;
      requests := [];
    }

    /**
     * `viewDidLoad`: without a logged-in user nothing happens; otherwise a refresh load,
     * then an unfiltered message observer and an unfiltered user observer.
     */
    method ViewDidLoad(currentUser: Option<User>)
      requires registry.Valid()
      modifies this, registry
      ensures registry.Valid()
      ensures currentUser.None? ==> State() == old(State()) && registry.delegates == old(registry.delegates)
      ensures currentUser.Some? ==>
        messageToken.Some? && userToken.Some? && messageToken != userToken &&
        registry.delegates == old(registry.delegates) + [
          Observers.ChannelDelegate(messageToken.value, None, Observers.MessageHandler),
          Observers.ChannelDelegate(userToken.value, None, Observers.UserHandler)] &&
        State() == LoadResult(old(State()), true).(messageToken := messageToken, userToken := userToken)
    {
      if currentUser.None? {
        return;
      }
      LoadChannels(true);
      var m := registry.AddMessage(None);
      messageToken := Some(m);
      assert registry.delegates[|registry.delegates| - 1].uuid == m;
      var u := registry.AddUser(None);
      userToken := Some(u);
    }

    /** `loadChannels(refresh:)`. */
    method LoadChannels(refresh: bool)
      modifies this
      ensures State() == LoadResult(old(State()), refresh)
    {
      if refresh {
        query := None;
      }
      if query.None? {
        query := Some(ChannelQuery(queriesCreated, true));
        queriesCreated := queriesCreated + 1;
      }
      if !query.value.hasNext {
        return;
      }
      requests := requests + [PageRequest(query.value.id, refresh)];
    }

    /**
     * What `loadChannels(refresh:)` does: a refresh drops the query; a missing query is
     * replaced by a new one (which reports a next page); a page is asked of the query only
     * when it reports one.
     */
    static function LoadResult(s: ListState, refresh: bool): (r: ListState)
      ensures r.channels == s.channels && r.query.Some?
      ensures s.requests <= r.requests && |r.requests| <= |s.requests| + 1
    {
      var kept := if refresh then None else s.query;
      var s1 := if kept.None? then s.(query := Some(ChannelQuery(s.queriesCreated, true)), queriesCreated := s.queriesCreated + 1)
                else s.(query := kept);
      if s1.query.value.hasNext then s1.(requests := s1.requests + [PageRequest(s1.query.value.id, refresh)]) else s1
    }

    /** `loadChannels` asks for at most one page, and for none when a kept query has no next page. */
    static lemma LoadAsksAtMostOnePage(s: ListState, refresh: bool)
      ensures var r := LoadResult(s, refresh);
        r.channels == s.channels && r.query.Some? &&
        (r.requests == s.requests || r.requests == s.requests + [PageRequest(r.query.value.id, refresh)])
      ensures refresh ==> LoadResult(s, refresh).requests == s.requests + [PageRequest(s.queriesCreated, true)]
      ensures !refresh && s.query.Some? && !s.query.value.hasNext ==> LoadResult(s, refresh) == s
      ensures !refresh && s.query.Some? && s.query.value.hasNext ==>
        LoadResult(s, refresh) == s.(requests := s.requests + [PageRequest(s.query.value.id, false)])
    {
    }

    /**
     * The page callback. The SDK records on its query whether a further page exists; then
     * a refresh empties the list, a page is appended, the table reloads and the
     * no-content view is updated.
     */
    method CompleteLoadChannels(request: PageRequest, page: Option<seq<Channel>>, hasNextAfter: bool)
      modifies this
      ensures State() == PageResult(old(State()), request, page, hasNextAfter)
    {
      if query.Some? && query.value.id == request.queryId {
        query := Some(query.value.(hasNext := hasNextAfter));
      }
      if request.refresh {
        channels := [];
      }
      if page.Some? {
        channels := channels + page.value;
      }
      reloads := reloads + 1;
      CheckNoContent();
    }

    static function PageResult(s: ListState, request: PageRequest, page: Option<seq<Channel>>, hasNextAfter: bool): (r: ListState)
      ensures r.channels == (if request.refresh then [] else s.channels) + page.GetOr([])
      ensures r.noContentHidden <==> |r.channels| > 0
      ensures r == s.(channels := r.channels, query := r.query, noContentHidden := r.noContentHidden, reloads := s.reloads + 1)
      ensures s.query.Some? && s.query.value.id == request.queryId ==> r.query == Some(ChannelQuery(request.queryId, hasNextAfter))
      ensures !(s.query.Some? && s.query.value.id == request.queryId) ==> r.query == s.query
    {
      var q := if s.query.Some? && s.query.value.id == request.queryId then Some(s.query.value.(hasNext := hasNextAfter)) else s.query;
      var cs := (if request.refresh then [] else s.channels) + (if page.Some? then page.value else []);
      s.(query := q, channels := cs, reloads := s.reloads + 1, noContentHidden := |cs| > 0)
    }

    /** `updateChannel(_:)`, run on the main queue. */
    method UpdateChannel(channel: Channel)
      modifies this
      ensures !channel.isGroup ==> State() == old(State())
      ensures channel.isGroup ==> State() == old(State()).(channels := Updated(old(channels), channel), reloads := old(reloads) + 1)
    {
      if !channel.isGroup {
        return;
      }
      var index := IndexOfUrl(channels, channel.channelUrl);
      if index.Some? {
        channels := Swap(channels, 0, index.value);
      } else {
        channels := [channel] + channels;
      }
      reloads := reloads + 1;
    }

    /** The message observer: every kind of message event updates the event's channel. */
    method OnMessageEvent(event: Observers.MessageEvent)
      modifies this
      ensures !event.channel.isGroup ==> State() == old(State())
      ensures event.channel.isGroup ==>
        State() == old(State()).(channels := Updated(old(channels), event.channel), reloads := old(reloads) + 1)
    {
      UpdateChannel(event.channel);
    }

    /** The user observer: the channel goes in front unless already listed; the table reloads. */
    method OnUserEvent(channel: Channel, user: User)
      modifies this
      ensures State() == old(State()).(channels := InsertIfAbsent(old(channels), channel), reloads := old(reloads) + 1)
    {
      if IndexOfUrl(channels, channel.channelUrl).None? {
        channels := [channel] + channels;
      }
      reloads := reloads + 1;
    }

    /** `checkNoContent`. */
    method CheckNoContent()
      modifies this
      ensures State() == old(State()).(noContentHidden := |old(channels)| > 0)
    {
      noContentHidden := |channels| > 0;
    }

    /**
     * `tableView(_:cellForRowAt:)`: the row's channel goes to the cell; showing the last
     * row asks for the next page.
     */
    method CellForRow(row: nat) returns (shown: Channel)
      requires row < |channels|
      modifies this
      ensures shown == old(channels)[row]
      ensures row == |old(channels)| - 1 ==> State() == LoadResult(old(State()), false)
      ensures row != |old(channels)| - 1 ==> State() == old(State())
    {
      shown := channels[row];
      if |channels| > 0 && row == |channels| - 1 {
        LoadChannels(false);
      }
    }

    /** `deinit`: removes each observer token that was set, and no other. */
    method Deinit()
      requires registry.Valid()
      modifies registry
      ensures registry.Valid()
      ensures registry.delegates == RemoveIfSet(RemoveIfSet(old(registry.delegates), messageToken), userToken)
    {
      if messageToken.Some? {
        registry.Remove(messageToken.value);
      }
      if userToken.Some? {
        registry.Remove(userToken.value);
      }
    }
  }

  /** `if let token { SBDMain.remove(observer: token) }`. */
  function RemoveIfSet(ds: seq<Observers.ChannelDelegate>, token: Option<Observers.Token>): (r: seq<Observers.ChannelDelegate>)
    ensures token.None? ==> r == ds
    ensures token.Some? ==> token.value !in Observers.Tokens(r)
    ensures forall d :: d in r <==> d in ds && (token.None? || d.uuid != token.value)
  {
    if token.Some? then Observers.RemoveAll(ds, token.value) else ds
  }
}
