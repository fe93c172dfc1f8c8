/** The event router: for every inbound socket event, the deliveries the
    server makes, as a function of the presence registry at that moment.
    A delivery stands for one `io.to(target).emit(event, payload)`. */
module Routing {

  import opened Wrappers
  import opened Presence

  // Names of the events the server emits.
  const NotificationEvent: string := "notification"
  const TypingEvent: string := "typing"
  const StopTypingEvent: string := "stopTyping"
  const IncomingCallEvent: string := "incomingCall"
  const CallAcceptedEvent: string := "callAccepted"
  const CallRejectedEvent: string := "callRejected"
  const CallCanceledEvent: string := "callCanceled"
  const CallFailedEvent: string := "callFailed"

  /** The `reason` of a `callFailed` payload. */
  const NotConnectedReason: string := "User not connected"

  // The two `chatType` values the typing handlers recognise.
  const DirectChat: string := "dm"
  const GroupChat: string := "group"

  /** The payload objects the server emits. The constant `type` field of a
      notification or call payload is given by the constructor. */
  datatype Payload =
    | DirectNote(senderName: string, message: string)                    // type "dm"
    | GroupNote(senderName: string, message: string, groupName: string)  // type "group"
    | TypingDirect(sender: UserId)
    | TypingGroup(sender: UserId, groupId: string)
    | NoPayload                                                          // `stopTyping` carries none
    | VoiceCall(sender: UserId, senderName: string, channel: string)     // type "voice"
    | CallFailure(receiver: UserId, reason: string)
    | CallParties(sender: UserId, receiver: UserId)

  /** One emit. `to` is None when the server emits to `users[x]` for an
      unregistered `x`, which addresses no socket at all. */
  datatype Delivery = Delivery(to: Option<SocketId>, event: string, payload: Payload)

  /** The inbound events with their payload fields. `members` of the typing
      events (`memberList`) is None when the client sent no member list. */
  datatype Request =
    | SendMessage(sender: UserId, senderName: string, receiver: UserId, message: string)
    | SendGroupMessage(sender: UserId, senderName: string, groupName: string, members: seq<UserId>, message: string)
    | Typing(chatType: string, sender: UserId, receiver: UserId, groupId: string, memberList: Option<seq<UserId>>)
    | StopTyping(chatType: string, sender: UserId, receiver: UserId, groupId: string, memberList: Option<seq<UserId>>)
    | IncomingCall(sender: UserId, senderName: string, receiver: UserId, channel: string)
    | CallAccepted(sender: UserId, receiver: UserId)
    | CallRejected(sender: UserId, receiver: UserId)
    | CallCanceled(sender: UserId, receiver: UserId)

  /** How many of `ds` carry the event name `event`. */
  function Count(ds: seq<Delivery>, event: string): nat
  {
    if ds == [] then 0
    else Count(ds[..|ds| - 1], event) + (if ds[|ds| - 1].event == event then 1 else 0)
  }

  // ---------------------------------------------------------------------
  // Fan-out over a member list (the `members.forEach` loops)

  /** A member the loop emits to: not the sender, and registered. */
  predicate Addressed(users: Registry, sender: UserId, m: UserId)
  {
    m != sender && m in users
  }

  /** The members a `members.forEach` loop emits to, in list order. */
  function Recipients(users: Registry, sender: UserId, members: seq<UserId>): (r: seq<UserId>)
    ensures |r| <= |members|
    ensures forall m :: m in r ==> m in members && Addressed(users, sender, m)
  {
    if members == [] then []
    else
      var last := members[|members| - 1];
      Recipients(users, sender, members[..|members| - 1]) + (if Addressed(users, sender, last) then [last] else [])
  }

  /** One delivery of `event` and `payload` to the socket of each of `ids`. */
  function Notify(users: Registry, ids: seq<UserId>, event: string, payload: Payload): seq<Delivery>
  {
    seq(|ids|, i requires 0 <= i < |ids| => Delivery(Lookup(users, ids[i]), event, payload))
  }

  /** The deliveries of one `members.forEach` loop. */
  function FanOut(users: Registry, sender: UserId, members: seq<UserId>, event: string, payload: Payload): seq<Delivery>
  {
    Notify(users, Recipients(users, sender, members), event, payload)
  }

  /** Every member other than the sender that is registered is reached once
      per occurrence in the list (so a repeated member is reached repeatedly),
      and the sender and unregistered members are never reached. */
  lemma {:induction false} RecipientsMultiplicity(users: Registry, sender: UserId, members: seq<UserId>, m: UserId)
    ensures multiset(Recipients(users, sender, members))[m]
         == if Addressed(users, sender, m) then multiset(members)[m] else 0
  {
    if members != [] {
      var prefix, last := members[..|members| - 1], members[|members| - 1];
      RecipientsMultiplicity(users, sender, prefix, m);
      assert members == prefix + [last];
    }
  }

  /** The loop keeps list order: going through two lists one after the other
      reaches the same members, in the same order, as going through their
      concatenation. */
  lemma {:induction false} RecipientsAppend(users: Registry, sender: UserId, a: seq<UserId>, b: seq<UserId>)
    ensures Recipients(users, sender, a + b) == Recipients(users, sender, a) + Recipients(users, sender, b)
  {
    if b == [] {
      assert a + b == a;
    } else {
      var prefix, last := b[..|b| - 1], b[|b| - 1];
      RecipientsAppend(users, sender, a, prefix);
      assert (a + b)[..|a + b| - 1] == a + prefix;
    }
  }

  /** A fan-out delivers exactly to the sockets of the members other than
      the sender that are registered, always with the same event and payload. */
  lemma FanOutTargets(users: Registry, sender: UserId, members: seq<UserId>, event: string, payload: Payload, d: Delivery)
    ensures d in FanOut(users, sender, members, event, payload)
        <==> exists m :: m in members && Addressed(users, sender, m) && d == Delivery(Some(users[m]), event, payload)
  {
    var ids := Recipients(users, sender, members);
    if d in FanOut(users, sender, members, event, payload) {
      var i :| 0 <= i < |ids| && FanOut(users, sender, members, event, payload)[i] == d;
      assert ids[i] in ids;
    }
    if m :| m in members && Addressed(users, sender, m) && d == Delivery(Some(users[m]), event, payload) {
      RecipientsMultiplicity(users, sender, members, m);
      assert m in multiset(ids);
      var i :| 0 <= i < |ids| && ids[i] == m;
      assert FanOut(users, sender, members, event, payload)[i] == d;
    }
  }

  /** The sender's own socket gets nothing from a fan-out, unless another
      registered identity shares that socket. */
  lemma FanOutSkipsSender(users: Registry, sender: UserId, members: seq<UserId>, event: string, payload: Payload)
    requires sender in users
    requires forall m :: m in users && m != sender ==> users[m] != users[sender]
    ensures Delivery(Some(users[sender]), event, payload) !in FanOut(users, sender, members, event, payload)
  {
    FanOutTargets(users, sender, members, event, payload, Delivery(Some(users[sender]), event, payload));
  }

  // ---------------------------------------------------------------------
  // The handlers

  /** `sendMessage`: one `notification` to the receiver's socket when the
      receiver is registered, nothing otherwise. */
  function DirectMessage(users: Registry, senderName: string, receiver: UserId, message: string): (r: seq<Delivery>)
    ensures |r| == if receiver in users then 1 else 0
    ensures forall d :: d in r ==> d == Delivery(Lookup(users, receiver), NotificationEvent, DirectNote(senderName, message))
  {
    var receiverSocket := Lookup(users, receiver);
    if receiverSocket.Some? then [Delivery(receiverSocket, NotificationEvent, DirectNote(senderName, message))] else []
  }

  /** `sendGroupMessage`: a group `notification` to every member but the sender. */
  function GroupMessage(users: Registry, sender: UserId, senderName: string, groupName: string, members: seq<UserId>, message: string): seq<Delivery>
  {
    FanOut(users, sender, members, NotificationEvent, GroupNote(senderName, message, groupName))
  }

  /** `sendGroupMessage` notifies exactly the sockets of the listed members
      other than the sender that are registered. */
  lemma GroupMessageTargets(users: Registry, sender: UserId, senderName: string, groupName: string, members: seq<UserId>, message: string, d: Delivery)
    ensures d in GroupMessage(users, sender, senderName, groupName, members, message)
        <==> exists m :: m in members && Addressed(users, sender, m)
                      && d == Delivery(Some(users[m]), NotificationEvent, GroupNote(senderName, message, groupName))
  {
    FanOutTargets(users, sender, members, NotificationEvent, GroupNote(senderName, message, groupName), d);
  }

  /** `sendGroupMessage` makes one delivery per reached member, in list order,
      and reaches each registered member other than the sender once per
      listing and nobody else. */
  lemma GroupMessagePerMember(users: Registry, sender: UserId, senderName: string, groupName: string, members: seq<UserId>, message: string, m: UserId)
    ensures var ids := Recipients(users, sender, members);
      && |GroupMessage(users, sender, senderName, groupName, members, message)| == |ids|
      && (forall i :: 0 <= i < |ids| ==>
            && ids[i] in users
            && GroupMessage(users, sender, senderName, groupName, members, message)[i]
                 == Delivery(Some(users[ids[i]]), NotificationEvent, GroupNote(senderName, message, groupName)))
      && multiset(ids)[m] == if Addressed(users, sender, m) then multiset(members)[m] else 0
  {
    RecipientsMultiplicity(users, sender, members, m);
  }

  /** `typing`: to the receiver in a direct chat, to the other members in a
      group chat, to nobody for any other chat type. The early return on a
      missing or empty member list delivers what the loop would have. */
  function TypingSignal(users: Registry, chatType: string, sender: UserId, receiver: UserId, groupId: string, members: Option<seq<UserId>>): (r: seq<Delivery>)
    ensures chatType == DirectChat ==>
      && |r| == (if receiver in users then 1 else 0)
      && forall d :: d in r ==> d == Delivery(Lookup(users, receiver), TypingEvent, TypingDirect(sender))
    ensures chatType == GroupChat ==>
      r == FanOut(users, sender, if members.Some? then members.value else [], TypingEvent, TypingGroup(sender, groupId))
    ensures chatType != DirectChat && chatType != GroupChat ==> r == []
  {
    if chatType == DirectChat then
      var receiverSocket := Lookup(users, receiver);
      if receiverSocket.Some? then [Delivery(receiverSocket, TypingEvent, TypingDirect(sender))] else []
    else if chatType == GroupChat then
      if members.None? || |members.value| == 0 then []
      else FanOut(users, sender, members.value, TypingEvent, TypingGroup(sender, groupId))
    else []
  }

  /** `stopTyping`: addressed as `typing`, with no payload. */
  function StopTypingSignal(users: Registry, chatType: string, sender: UserId, receiver: UserId, groupId: string, members: Option<seq<UserId>>): (r: seq<Delivery>)
    ensures chatType == DirectChat ==>
      && |r| == (if receiver in users then 1 else 0)
      && forall d :: d in r ==> d == Delivery(Lookup(users, receiver), StopTypingEvent, NoPayload)
    ensures chatType == GroupChat ==>
      r == FanOut(users, sender, if members.Some? then members.value else [], StopTypingEvent, NoPayload)
    ensures chatType != DirectChat && chatType != GroupChat ==> r == []
  {
    if chatType == DirectChat then
      var receiverSocket := Lookup(users, receiver);
      if receiverSocket.Some? then [Delivery(receiverSocket, StopTypingEvent, NoPayload)] else []
    else if chatType == GroupChat then
      if members.None? || |members.value| == 0 then []
      else FanOut(users, sender, members.value, StopTypingEvent, NoPayload)
    else []
  }

  /** `incomingCall`: exactly one event. The callee is rung when registered;
      otherwise the caller is told the call failed, at whatever `users[sender]`
      is, which addresses nobody when the caller is not registered either. */
  function CallRequest(users: Registry, sender: UserId, senderName: string, receiver: UserId, channel: string): (r: seq<Delivery>)
    ensures |r| == 1
    ensures Count(r, IncomingCallEvent) == if receiver in users then 1 else 0
    ensures Count(r, CallFailedEvent) == if receiver in users then 0 else 1
    ensures forall d :: d in r && d.event == IncomingCallEvent ==>
      d.to == Lookup(users, receiver) && d.payload == VoiceCall(sender, senderName, channel)
    ensures forall d :: d in r && d.event == CallFailedEvent ==>
      d.to == Lookup(users, sender) && d.payload == CallFailure(receiver, NotConnectedReason)
  {
    var receiverSocket := Lookup(users, receiver);
    if receiverSocket.Some? then [Delivery(receiverSocket, IncomingCallEvent, VoiceCall(sender, senderName, channel))]
    else [Delivery(Lookup(users, sender), CallFailedEvent, CallFailure(receiver, NotConnectedReason))]
  }

  /** `callAccepted`, `callRejected`, `callCanceled`: the pair of identities is
      forwarded under the same event name to `users[receiver]`, with no record
      of a call having rung. */
  function CallForward(users: Registry, event: string, sender: UserId, receiver: UserId): (r: seq<Delivery>)
    ensures |r| == if receiver in users then 1 else 0
    ensures forall d :: d in r ==> d == Delivery(Lookup(users, receiver), event, CallParties(sender, receiver))
  {
    var target := Lookup(users, receiver);
    if target.Some? then [Delivery(target, event, CallParties(sender, receiver))] else []
  }

  /** The deliveries of one inbound event. Each handler emits only under its
      own event name; `incomingCall` answers with `callFailed` exactly when
      the callee is not registered. */
  function Route(users: Registry, req: Request): (r: seq<Delivery>)
    ensures forall d :: d in r ==> d.event == match req
      case SendMessage(_, _, _, _) => NotificationEvent
      case SendGroupMessage(_, _, _, _, _) => NotificationEvent
      case Typing(_, _, _, _, _) => TypingEvent
      case StopTyping(_, _, _, _, _) => StopTypingEvent
      case IncomingCall(_, _, receiver, _) => if receiver in users then IncomingCallEvent else CallFailedEvent
      case CallAccepted(_, _) => CallAcceptedEvent
      case CallRejected(_, _) => CallRejectedEvent
      case CallCanceled(_, _) => CallCanceledEvent
  {
    match req
    case SendMessage(_, senderName, receiver, message) => DirectMessage(users, senderName, receiver, message)
    case SendGroupMessage(sender, senderName, groupName, members, message) =>
      GroupMessage(users, sender, senderName, groupName, members, message)
    case Typing(chatType, sender, receiver, groupId, members) =>
      TypingSignal(users, chatType, sender, receiver, groupId, members)
    case StopTyping(chatType, sender, receiver, groupId, members) =>
      StopTypingSignal(users, chatType, sender, receiver, groupId, members)
    case IncomingCall(sender, senderName, receiver, channel) => CallRequest(users, sender, senderName, receiver, channel)
    case CallAccepted(sender, receiver) => CallForward(users, CallAcceptedEvent, sender, receiver)
    case CallRejected(sender, receiver) => CallForward(users, CallRejectedEvent, sender, receiver)
    case CallCanceled(sender, receiver) => CallForward(users, CallCanceledEvent, sender, receiver)
  }

  // ---------------------------------------------------------------------
  // Properties of every handler

  /** Every delivery goes to a socket that is bound in the registry; the one
      delivery with no socket at all is a `callFailed` to an unregistered caller. */
  lemma RouteTargetsRegistered(users: Registry, req: Request, d: Delivery)
    requires d in Route(users, req)
    ensures d.to.Some? ==> d.to.value in users.Values
    ensures d.to.None? ==> d.event == CallFailedEvent && req.IncomingCall? && req.sender !in users
  {
    match req
    case SendGroupMessage(sender, senderName, groupName, members, message) =>
      FanOutTargets(users, sender, members, NotificationEvent, GroupNote(senderName, message, groupName), d);
    case Typing(chatType, sender, _, groupId, members) =>
      if chatType == GroupChat && members.Some? {
        FanOutTargets(users, sender, members.value, TypingEvent, TypingGroup(sender, groupId), d);
      }
    case StopTyping(chatType, sender, _, _, members) =>
      if chatType == GroupChat && members.Some? {
        FanOutTargets(users, sender, members.value, StopTypingEvent, NoPayload, d);
      }
    case _ =>
  }

  /** Once a socket has closed, no event routed afterwards reaches it. */
  lemma ClosedSocketUnreachable(users: Registry, socket: SocketId, req: Request)
    ensures forall d :: d in Route(Unbind(users, socket), req) ==> d.to != Some(socket)
  {
    forall d | d in Route(Unbind(users, socket), req)
      ensures d.to != Some(socket)
    {
      RouteTargetsRegistered(Unbind(users, socket), req, d);
    }
  }

}
