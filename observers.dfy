/**
 * Channel observers (ChatBird/Classes/SBDMain+Observers.swift): a process-wide list of
 * channel delegates, each registered under a token, and the filter-then-forward logic
 * by which a delegate turns SDK callbacks into calls of its one registered handler.
 */
module Observers {
  import opened Wrappers
  import opened Sdk

  /** `ChannelObservervation` (a `UUID`). Fresh tokens come from a counter. */
  type Token = nat

  /** `MessageEvent`. */
  datatype MessageEvent =
    | Received(channel: Channel, message: Message)
    | Updated(channel: Channel, message: Message)
    | Deleted(channel: Channel, id: int)

  /** Which of the four handlers a delegate was given; the other three are no-ops. */
  datatype HandlerKind = TypingHandler | ReadHandler | MessageHandler | UserHandler

  /** `ChannelDelegate`: its token, the channel url it is limited to (if any), and its handler. */
  datatype ChannelDelegate = ChannelDelegate(uuid: Token, channelFilter: Option<string>, handler: HandlerKind)

  /** The `SBDChannelDelegate` callbacks the delegate implements. */
  datatype Callback =
    | TypingStatusChanged(sender: Channel)
    | ReadReceiptChanged(sender: Channel)
    | MessageDidUpdate(sender: Channel, message: Message)
    | MessageWasDeleted(sender: Channel, messageId: int)
    | MessageDidReceive(sender: Channel, message: Message)
    | UserDidJoin(sender: Channel, user: User)
    | UserDidLeave(sender: Channel, user: User)

  /** A call of one of the delegate's four closures. */
  datatype Invocation =
    | TypingStatusUpdated
    | ReadReceiptUpdated
    | MessagesUpdated(event: MessageEvent)
    | UserUpdated(channel: Channel, user: User)

  /** The guard of every callback: no filter, or the sender's url equals it. */
  predicate PassesFilter(d: ChannelDelegate, sender: Channel)
    ensures d.channelFilter.None? ==> PassesFilter(d, sender)
    ensures PassesFilter(d, sender) && d.channelFilter.Some? ==> d.channelFilter.value == sender.channelUrl
  {
    d.channelFilter.None? || d.channelFilter == Some(sender.channelUrl)
  }

  /** The closure each callback calls once it passes the filter. */
  function Translate(cb: Callback): (r: Invocation)
    ensures cb.MessageDidReceive? ==> r == MessagesUpdated(Received(cb.sender, cb.message))
    ensures cb.MessageDidUpdate? ==> r == MessagesUpdated(Updated(cb.sender, cb.message))
    ensures cb.MessageWasDeleted? ==> r == MessagesUpdated(Deleted(cb.sender, cb.messageId))
    ensures cb.UserDidJoin? || cb.UserDidLeave? ==> r == UserUpdated(cb.sender, cb.user)
  {
    match cb
    case TypingStatusChanged(_) => TypingStatusUpdated
    case ReadReceiptChanged(_) => ReadReceiptUpdated
    case MessageDidUpdate(sender, message) => MessagesUpdated(Updated(sender, message))
    case MessageWasDeleted(sender, id) => MessagesUpdated(Deleted(sender, id))
    case MessageDidReceive(sender, message) => MessagesUpdated(Received(sender, message))
    case UserDidJoin(sender, user) => UserUpdated(sender, user)
    case UserDidLeave(sender, user) => UserUpdated(sender, user)
  }

  /**
   * What translation keeps: a message callback is recovered whole from its invocation;
   * a join and a leave of the same user in the same channel become the same call; the
   * typing and read-receipt closures take no arguments, so only the kind of callback survives.
   */
  lemma TranslateKeeps(a: Callback, b: Callback)
    requires Translate(a) == Translate(b)
    ensures a.MessageDidReceive? || a.MessageDidUpdate? || a.MessageWasDeleted? ==> a == b
    ensures a.UserDidJoin? || a.UserDidLeave? ==>
      (b.UserDidJoin? || b.UserDidLeave?) && a.sender == b.sender && a.user == b.user
    ensures a.TypingStatusChanged? <==> b.TypingStatusChanged?
    ensures a.ReadReceiptChanged? <==> b.ReadReceiptChanged?
  {
    match a
    case TypingStatusChanged(_) =>
      assert b.TypingStatusChanged?;
    case ReadReceiptChanged(_) =>
      assert b.ReadReceiptChanged?;
    case MessageDidUpdate(_, _) =>
      assert b.MessageDidUpdate?;
    case MessageWasDeleted(_, _) =>
      assert b.MessageWasDeleted?;
    case MessageDidReceive(_, _) =>
      assert b.MessageDidReceive?;
    case UserDidJoin(_, _) =>
    case UserDidLeave(_, _) =>
  }

  /** The callback a delegate forwards to its closures: the translated call, or nothing when filtered out. */
  function Forward(d: ChannelDelegate, cb: Callback): (r: Option<Invocation>)
    ensures r.Some? <==> d.channelFilter.None? || d.channelFilter == Some(cb.sender.channelUrl)
    ensures r.Some? ==> r.value == Translate(cb)
  {
    if PassesFilter(d, cb.sender) then Some(Translate(cb)) else None
  }

  /** Whether a handler of this kind is the closure an invocation calls. */
  predicate Handles(kind: HandlerKind, inv: Invocation) {
    match inv
    case TypingStatusUpdated => kind == TypingHandler
    case ReadReceiptUpdated => kind == ReadHandler
    case MessagesUpdated(_) => kind == MessageHandler
    case UserUpdated(_, _) => kind == UserHandler
  }

  /** What the registered observer actually sees: a forwarded call of its own closure. */
  function Observe(d: ChannelDelegate, cb: Callback): (r: Option<Invocation>)
    ensures r.Some? <==> PassesFilter(d, cb.sender) && Handles(d.handler, Translate(cb))
    ensures r.Some? ==> r == Forward(d, cb)
  {
    var f := Forward(d, cb);
    if f.Some? && Handles(d.handler, f.value) then f else None
  }

  /** A read observer never sees message events, and a message observer sees nothing else. */
  lemma ObserversSeeOnlyTheirEvents(d: ChannelDelegate, cb: Callback)
    ensures d.handler == ReadHandler && Observe(d, cb).Some? ==> cb.ReadReceiptChanged?
    ensures d.handler == MessageHandler && Observe(d, cb).Some? ==>
      cb.MessageDidReceive? || cb.MessageDidUpdate? || cb.MessageWasDeleted?
    ensures d.handler == UserHandler && Observe(d, cb).Some? ==> cb.UserDidJoin? || cb.UserDidLeave?
  {
  }

  function Tokens(ds: seq<ChannelDelegate>): set<Token> {
    set i | 0 <= i < |ds| :: ds[i].uuid
  }

  /** `delegates.removeAll { $0.uuid == observer }`. */
  function RemoveAll(ds: seq<ChannelDelegate>, token: Token): (r: seq<ChannelDelegate>)
    ensures token !in Tokens(r)
    ensures forall d :: d in r <==> d in ds && d.uuid != token
    ensures |r| <= |ds|
  {
    if ds == [] then []
    else if ds[0].uuid == token then RemoveAll(ds[1..], token)
    else [ds[0]] + RemoveAll(ds[1..], token)
  }

  /** Removal works element by element, so it keeps the order of what remains. */
  lemma {:induction false} RemoveAllDistributes(a: seq<ChannelDelegate>, b: seq<ChannelDelegate>, token: Token)
    ensures RemoveAll(a + b, token) == RemoveAll(a, token) + RemoveAll(b, token)
  {
    if a == [] {
      assert a + b == b;
    } else {
      assert (a + b)[1..] == a[1..] + b;
      RemoveAllDistributes(a[1..], b, token);
    }
  }

  /** Removing an unknown token leaves the list as it was. */
  lemma {:induction false} RemoveUnknownToken(ds: seq<ChannelDelegate>, token: Token)
    requires token !in Tokens(ds)
    ensures RemoveAll(ds, token) == ds
  {
    if ds != [] {
      assert Tokens(ds[1..]) <= Tokens(ds) by {
        forall t | t in Tokens(ds[1..]) ensures t in Tokens(ds) {
          var i :| 0 <= i < |ds[1..]| && ds[1..][i].uuid == t;
          assert ds[i + 1].uuid == t;
        }
      }
      assert ds[0].uuid in Tokens(ds);
      RemoveUnknownToken(ds[1..], token);
    }
  }

  /** Adding a delegate under a fresh token and then removing that token restores the list. */
  lemma AddThenRemove(ds: seq<ChannelDelegate>, d: ChannelDelegate)
    requires d.uuid !in Tokens(ds)
    ensures RemoveAll(ds + [d], d.uuid) == ds
  {
    RemoveAllDistributes(ds, [d], d.uuid);
    RemoveUnknownToken(ds, d.uuid);
    assert RemoveAll([d], d.uuid) == [];
  }

  /** `SBDMain`'s static `delegates` list. */
  class Registry {
    var delegates: seq<ChannelDelegate>
    var nextUuid: Token

    ghost predicate Valid()
      reads this
    {
      forall i :: 0 <= i < |delegates| ==> delegates[i].uuid < nextUuid
    }

    constructor ()
      ensures Valid() && delegates == []
    {
      delegates := [];
      nextUuid := 0;
    }

    method Add(channelFilter: Option<string>, handler: HandlerKind) returns (token: Token)
      requires Valid()
      modifies this
      ensures Valid()
      ensures token !in Tokens(old(delegates))
      ensures delegates == old(delegates) + [ChannelDelegate(token, channelFilter, handler)]
    {
      token := nextUuid;
      nextUuid := nextUuid + 1;
      delegates := delegates + [ChannelDelegate(token, channelFilter, handler)];
    }

    /** `addRead(observer:forChannel:)`: registers a read-receipt handler, filtered to the channel if one is given. */
    method AddRead(channelFilter: Option<string>) returns (token: Token)
      requires Valid()
      modifies this
      ensures Valid()
      ensures token !in Tokens(old(delegates))
      ensures delegates == old(delegates) + [ChannelDelegate(token, channelFilter, ReadHandler)]
    {
      token := Add(channelFilter, ReadHandler);
    }

    /** `addMessage(observer:forChannel:)`. */
    method AddMessage(channelFilter: Option<string>) returns (token: Token)
      requires Valid()
      modifies this
      ensures Valid()
      ensures token !in Tokens(old(delegates))
      ensures delegates == old(delegates) + [ChannelDelegate(token, channelFilter, MessageHandler)]
    {
      token := Add(channelFilter, MessageHandler);
    }

    /** `addUser(observer:forChannel:)`. */
    method AddUser(channelFilter: Option<string>) returns (token: Token)
      requires Valid()
      modifies this
      ensures Valid()
      ensures token !in Tokens(old(delegates))
      ensures delegates == old(delegates) + [ChannelDelegate(token, channelFilter, UserHandler)]
    {
      token := Add(channelFilter, UserHandler);
    }

    /** `remove(observer:)`: drops every delegate registered under the token. */
    method Remove(token: Token)
      requires Valid()
      modifies this
      ensures Valid()
      ensures delegates == RemoveAll(old(delegates), token)
      ensures token !in Tokens(old(delegates)) ==> delegates == old(delegates)
    {
      if token !in Tokens(delegates) {
        RemoveUnknownToken(delegates, token);
      }
      delegates := RemoveAll(delegates, token);
    }

  }
}
