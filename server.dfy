/** The socket server: the registry of connected users and the handlers
    Socket.IO runs for each connection. Node runs one handler at a time to
    completion, so the handlers are sequential methods. Emitting to a socket
    appends to `outbox`. */
module Server {

  import opened Wrappers
  import opened Presence
  import opened Routing

  class Relay {
    /** Identity to socket id (`const users = {}`). */
    var users: Registry
    /** Every emit so far, oldest first. */
    var outbox: seq<Delivery>

    constructor ()
      ensures users == map[] && outbox == []
    {
      users := map[];
      outbox := [];
    }

    /** `io.to(to).emit(event, payload)`. */
    method Emit(to: Option<SocketId>, event: string, payload: Payload)
      modifies this`outbox
      ensures outbox == old(outbox) + [Delivery(to, event, payload)]
    {
      outbox := outbox + [Delivery(to, event, payload)];
    }

    /** `register` on socket `socket`: the last registration of an identity wins. */
    method Register(socket: SocketId, userId: UserId)
      modifies this`users
      ensures users == old(users)[userId := socket]
      ensures Lookup(users, userId) == Some(socket)
      ensures forall id :: id != userId ==> Lookup(users, id) == Lookup(old(users), id)
    {
      users := users[userId := socket];
    }

    /** `disconnect` of socket `socket`: goes through every registered
        identity and deletes those bound to this socket. */
    method Disconnect(socket: SocketId)
      modifies this`users
      ensures users == Unbind(old(users), socket)
      ensures socket !in users.Values
      ensures forall id :: Lookup(old(users), id) != Some(socket) ==> Lookup(users, id) == Lookup(old(users), id)
    {
      var keys := users.Keys;
      while keys != {}
        invariant keys <= old(users).Keys
        invariant users == map id | id in old(users) && (id in keys || old(users)[id] != socket) :: old(users)[id]
        decreases keys
      {
        var key :| key in keys;
        if users[key] == socket {
          users := users - {key};
        }
        keys := keys - {key};
      }
    }

    /** One `members.forEach`: emits to each member but the sender that is
        registered, in list order. */
    method Broadcast(sender: UserId, members: seq<UserId>, event: string, payload: Payload)
      modifies this`outbox
      ensures outbox == old(outbox) + FanOut(users, sender, members, event, payload)
    {
      var i := 0;
      while i < |members|
        invariant 0 <= i <= |members|
        invariant outbox == old(outbox) + FanOut(users, sender, members[..i], event, payload)
      {
        var memberId := members[i];
        if memberId != sender {
          var memberSocket := Lookup(users, memberId);
          if memberSocket.Some? {
            Emit(memberSocket, event, payload);
          }
        }
        assert members[..i + 1][..i] == members[..i];
        i := i + 1;
      }
      assert members[..i] == members;
    }

    /** `sendMessage`. */
    method SendMessage(sender: UserId, senderName: string, receiver: UserId, message: string)
      modifies this`outbox
      ensures outbox == old(outbox) + Route(users, Request.SendMessage(sender, senderName, receiver, message))
    {
      var receiverSocket := Lookup(users, receiver);
      if receiverSocket.Some? {
        Emit(receiverSocket, NotificationEvent, DirectNote(senderName, message));
      }
    }

    /** `sendGroupMessage`. */
    method SendGroupMessage(sender: UserId, senderName: string, groupName: string, members: seq<UserId>, message: string)
      modifies this`outbox
      ensures outbox == old(outbox) + Route(users, Request.SendGroupMessage(sender, senderName, groupName, members, message))
    {
      Broadcast(sender, members, NotificationEvent, GroupNote(senderName, message, groupName));
    }

    /** `typing`. */
    method Typing(chatType: string, sender: UserId, receiver: UserId, groupId: string, members: Option<seq<UserId>>)
      modifies this`outbox
      ensures outbox == old(outbox) + Route(users, Request.Typing(chatType, sender, receiver, groupId, members))
    {
      if chatType == DirectChat {
        var receiverSocket := Lookup(users, receiver);
        if receiverSocket.Some? {
          Emit(receiverSocket, TypingEvent, TypingDirect(sender));
        }
      } else if chatType == GroupChat {
        if members.None? || |members.value| == 0 {
          return;
        }
        Broadcast(sender, members.value, TypingEvent, TypingGroup(sender, groupId));
      }
    }

    /** `stopTyping`. */
    method StopTyping(chatType: string, sender: UserId, receiver: UserId, groupId: string, members: Option<seq<UserId>>)
      modifies this`outbox
      ensures outbox == old(outbox) + Route(users, Request.StopTyping(chatType, sender, receiver, groupId, members))
    {
      if chatType == DirectChat {
        var receiverSocket := Lookup(users, receiver);
        if receiverSocket.Some? {
          Emit(receiverSocket, StopTypingEvent, NoPayload);
        }
      } else if chatType == GroupChat {
        if members.None? || |members.value| == 0 {
          return;
        }
        Broadcast(sender, members.value, StopTypingEvent, NoPayload);
      }
    }

    /** `incomingCall`. */
    method IncomingCall(sender: UserId, senderName: string, receiver: UserId, channel: string)
      modifies this`outbox
      ensures outbox == old(outbox) + Route(users, Request.IncomingCall(sender, senderName, receiver, channel))
    {
      var receiverSocket := Lookup(users, receiver);
      if receiverSocket.Some? {
        Emit(receiverSocket, IncomingCallEvent, VoiceCall(sender, senderName, channel));
      } else {
        Emit(Lookup(users, sender), CallFailedEvent, CallFailure(receiver, NotConnectedReason));
      }
    }

    /** `callAccepted`: `receiver` names the caller to notify. */
    method CallAccepted(sender: UserId, receiver: UserId)
      modifies this`outbox
      ensures outbox == old(outbox) + Route(users, Request.CallAccepted(sender, receiver))
    {
      var callerSocket := Lookup(users, receiver);
      if callerSocket.Some? {
        Emit(callerSocket, CallAcceptedEvent, CallParties(sender, receiver));
      }
    }

    /** `callRejected`: `receiver` names the caller to notify. */
    method CallRejected(sender: UserId, receiver: UserId)
      modifies this`outbox
      ensures outbox == old(outbox) + Route(users, Request.CallRejected(sender, receiver))
    {
      var callerSocket := Lookup(users, receiver);
      if callerSocket.Some? {
        Emit(callerSocket, CallRejectedEvent, CallParties(sender, receiver));
      }
    }

    /** `callCanceled`: sent by the caller, `receiver` names the callee. */
    method CallCanceled(sender: UserId, receiver: UserId)
      modifies this`outbox
      ensures outbox == old(outbox) + Route(users, Request.CallCanceled(sender, receiver))
    {
      var receiverSocket := Lookup(users, receiver);
      if receiverSocket.Some? {
        Emit(receiverSocket, CallCanceledEvent, CallParties(sender, receiver));
      }
    }
  }

  // -----------------------------------------------------------------------
  // Clients of the server: sequences of events and what they deliver

  /** Alice on `c1` messages Bob on `c2`: Bob's socket gets the notification.
      Once `c2` has closed, the same message is delivered nowhere. */
  method DirectMessageScenario(c1: SocketId, c2: SocketId) returns (online: seq<Delivery>, offline: seq<Delivery>)
    ensures online == [Delivery(Some(c2), NotificationEvent, DirectNote("Alice", "hi"))]
    ensures offline == []
  {
    var relay := new Relay();
    relay.Register(c1, "alice");
    relay.Register(c2, "bob");
    relay.SendMessage("alice", "Alice", "bob", "hi");
    online := relay.outbox;
    relay.Disconnect(c2);
    relay.SendMessage("alice", "Alice", "bob", "hi");
    offline := relay.outbox[|online|..];
  }

  /** A call to a connected callee rings it, and its acceptance reaches the
      caller; a call to an identity that is not connected fails back to the caller. */
  method CallScenario(c1: SocketId, c2: SocketId) returns (answered: seq<Delivery>, failed: seq<Delivery>)
    ensures answered == [
      Delivery(Some(c2), IncomingCallEvent, VoiceCall("alice", "Alice", "ch")),
      Delivery(Some(c1), CallAcceptedEvent, CallParties("bob", "alice"))]
    ensures failed == [Delivery(Some(c1), CallFailedEvent, CallFailure("carol", NotConnectedReason))]
  {
    var relay := new Relay();
    relay.Register(c1, "alice");
    relay.Register(c2, "bob");
    relay.IncomingCall("alice", "Alice", "bob", "ch");
    relay.CallAccepted("bob", "alice");
    answered := relay.outbox;
    relay.IncomingCall("alice", "Alice", "carol", "ch");
    failed := relay.outbox[|answered|..];
  }

  /** Alice writes to a group listing herself, Bob twice and Carol, who is
      not connected: Bob's socket gets the notification once per listing,
      Alice and Carol get nothing. */
  method GroupMessageScenario(c1: SocketId, c2: SocketId) returns (sent: seq<Delivery>)
    ensures sent == [
      Delivery(Some(c2), NotificationEvent, GroupNote("Alice", "hi", "team")),
      Delivery(Some(c2), NotificationEvent, GroupNote("Alice", "hi", "team"))]
  {
    var relay := new Relay();
    relay.Register(c1, "alice");
    relay.Register(c2, "bob");
    var members := ["alice", "bob", "bob", "carol"];
    var users := relay.users;
    assert "bob" in users && "carol" !in users;
    assert ["alice"][..0] == [];
    assert Recipients(users, "alice", ["alice"]) == [];
    assert ["alice", "bob"][..1] == ["alice"];
    assert Recipients(users, "alice", ["alice", "bob"]) == ["bob"];
    assert ["alice", "bob", "bob"][..2] == ["alice", "bob"];
    assert Recipients(users, "alice", ["alice", "bob", "bob"]) == ["bob", "bob"];
    assert members[..3] == ["alice", "bob", "bob"];
    assert Recipients(users, "alice", members) == ["bob", "bob"];
    relay.SendGroupMessage("alice", "Alice", "team", members, "hi");
    sent := relay.outbox;
  }

  /** Bob reconnects on `c2` before his old socket `c1` reports its close: the
      close of `c1` leaves Bob reachable on `c2`. */
  method ReconnectScenario(c1: SocketId, c2: SocketId) returns (bob: Option<SocketId>)
    requires c1 != c2
    ensures bob == Some(c2)
  {
    var relay := new Relay();
    relay.Register(c1, "bob");
    relay.Register(c2, "bob");
    relay.Disconnect(c1);
    bob := Lookup(relay.users, "bob");
  }

}
