/** The server's protocol object, frame by frame, proved against the broker's state machine. */
module StompProtocol {
  import opened Wrappers
  import opened Text
  import opened Frames
  import opened WorldCupConnections
  import B = Broker
  import D = BrokerDelivery
  import I = BrokerInvariant

  /** The table under which the protocol object keeps a reply. */
  function ToTable(f: Frame): Table {
    match f
    case Connected => map["FrameType" := "CONNECTED", "accept-version" := "1.2"]
    case Receipt(id) => map["FrameType" := "RECEIPT", "receipt-id" := id]
    case Error(kind, original, description, receipt) =>
      var t := map["FrameType" := "ERROR", "errorType" := kind, "errorDescription" := description,
                   "originalMessage" := original];
      if receipt.Some? then t["receipt-id" := receipt.value] else t
    case Message(subscription, id, destination, body) =>
      map["FrameType" := "MESSAGE", "subscription" := subscription, "message-id" := id, "message" := body,
          "destination" := destination]
  }

  function HashmapToStomp(t: Table): string {
    var kind := Get(t, "FrameType");
    if kind == "ERROR" then
      "ERROR\n" + (if "receipt-id" in t then "receipt-id:" + t["receipt-id"] + "\n" else "")
      + "message:" + Get(t, "errorType") + "\n\nThe message:\n-----\n" + Get(t, "originalMessage") + "\n-----"
      + Get(t, "errorDescription")
    else if kind == "RECEIPT" then "RECEIPT\nreceipt-id:" + Get(t, "receipt-id") + "\n\n"
    else if kind == "MESSAGE" then
      "MESSAGE" + "\n" + SUBSCRIPTION + Get(t, "subscription") + "\n" + MESSAGE_ID + Get(t, "message-id") + "\n"
      + DESTINATION + Get(t, "destination") + "\n" + "\n" + Get(t, "message")
    else if kind == "CONNECTED" then "CONNECTED\nversion:" + Get(t, "accept-version") + "\n\n"
    else ""
  }

  lemma RenderedError(kind: string, original: string, description: string, receipt: Option<string>)
    ensures HashmapToStomp(ToTable(Error(kind, original, description, receipt)))
            == Render(Error(kind, original, description, receipt))
  {
  }

  lemma RenderedMessage(subscription: string, id: string, destination: string, body: string)
    ensures HashmapToStomp(ToTable(Message(subscription, id, destination, body)))
            == Render(Message(subscription, id, destination, body))
  {
    hide SUBSCRIPTION;
    hide MESSAGE_ID;
    hide DESTINATION;
  }

  lemma RenderedConnected()
    ensures HashmapToStomp(ToTable(Connected)) == Render(Connected)
  {
    assert "CONNECTED\nversion:" + "1.2" + "\n\n" == "CONNECTED\nversion:1.2\n\n";
  }

  lemma RenderedReceipt(id: string)
    ensures HashmapToStomp(ToTable(Receipt(id))) == Render(Receipt(id))
  {
  }

  lemma RenderedTable(f: Frame)
    ensures HashmapToStomp(ToTable(f)) == Render(f)
  {
    hide HashmapToStomp;
    hide ToTable;
    hide Render;
    match f
    case Connected => RenderedConnected();
    case Receipt(id) => RenderedReceipt(id);
    case Error(kind, original, description, receipt) => RenderedError(kind, original, description, receipt);
    case Message(subscription, id, destination, body) => RenderedMessage(subscription, id, destination, body);
  }

  /** The reply a handler has left behind. */
  predicate Left(stompFrame: Option<Table>, o: B.Outcome) {
    stompFrame == match o.reply case None => None case Some(f) => Some(ToTable(f))
  }

  /** A DISCONNECT whose user is subscribed to a topic without a list: the clean-up throws half-way. */
  ghost predicate LosesWay(v: B.State, q: B.Request) {
    && q.cid in v.byConn && q.kind == "DISCONNECT" && B.Objection(q.kind, q.table, q.receipt) == None
    && B.SignOff(v, q).threw
  }

  /** A clean-up that has thrown: one entry is out of its list for each id done, and all else is as it was. */
  ghost predicate HalfWay(v: B.State, q: B.Request, v': B.State)
    requires q.cid in v.byConn
  {
    var name := v.byConn[q.cid];
    var subs := B.UserOf(v, name).subs;
    exists left: set<string> :: left <= subs.Keys && v' == v.(topics := B.Leave(v.topics, subs - left, name))
  }

  /** With the indexes in agreement the clean-up never loses its way. */
  lemma NeverLosesWay(v: B.State, q: B.Request)
    requires I.Inv(v)
    ensures !LosesWay(v, q)
  {
    hide B.Objection;
    if q.cid in v.byConn {
      I.SignOffKeeps(v, q);
    }
  }

  lemma LosingThrows(v: B.State, q: B.Request, pick: string)
    requires LosesWay(v, q)
    ensures B.Handle(v, q, pick).threw
  {
  }

  /** An id the table maps to the destination, if there is one. */
  predicate Chosen(v: B.State, q: B.Request, pick: string) {
    var subs, destination := B.UserAt(v, q.cid).subs, Get(q.table, "destination");
    destination in subs.Values ==> B.Picks(subs, destination, pick)
  }

  /** A SEND that is carried out goes under an id its sender's table maps to the destination. */
  predicate PicksForSend(v: B.State, q: B.Request, pick: string) {
    q.kind == "SEND" && q.cid in v.byConn && B.Objection(q.kind, q.table, q.receipt) == None ==> Chosen(v, q, pick)
  }

  /** Only the last value put under a name counts. */
  lemma AttachOverwrites(v: B.State, c: int, n: string, u0: B.User, u: B.User)
    ensures B.Attach(v.(users := v.users[n := u0]), c, n, u) == B.Attach(v, c, n, u)
    ensures var w := B.Attach(v, c, n, u0);
            w.(users := w.users[n := u.(cid := c)]) == B.Attach(v, c, n, u)
  {
    assert v.users[n := u0][n := u.(cid := c)] == v.users[n := u.(cid := c)];
    assert v.users[n := u0.(cid := c)][n := u.(cid := c)] == v.users[n := u.(cid := c)];
  }

  class StompProtocol {
    var connections: WorldCupConnections
    var stompFrame: Option<Table>
    var connectionId: int
    var thisMessage: string

    constructor (connections: WorldCupConnections)
      ensures this.connections == connections
    {
      this.connections := connections;
      stompFrame, connectionId, thisMessage := None, 0, "";
    }

    method Start(connectionId: int, connections: WorldCupConnections)
      modifies this
      ensures stompFrame == Some(map[]) && this.connectionId == connectionId && this.connections == connections
    {
      stompFrame := Some(map[]);
      this.connectionId := connectionId;
      this.connections := connections;
    }

    ghost function Request(kind: string, receipt: bool): B.Request
      requires stompFrame.Some?
      reads this
    {
      B.Request(connectionId, kind, stompFrame.value, receipt, thisMessage)
    }

    /** Puts the headers into the table, line by line, and returns the text from the blank line on. */
    method ReadStompHeaders(cutMessage: string) returns (rest: string, threw: bool)
      requires stompFrame.Some?
      modifies this`stompFrame
      ensures stompFrame.Some?
      ensures threw <==> ReadHeaders(cutMessage, old(stompFrame.value)) == None
      ensures !threw ==> ReadHeaders(cutMessage, old(stompFrame.value)) == Some((stompFrame.value, rest))
    {
      hide FindFrom;
      rest, threw := cutMessage, false;
      while rest != "" && rest[..1] != "\n"
        invariant stompFrame.Some?
        invariant ReadHeaders(rest, stompFrame.value) == ReadHeaders(cutMessage, old(stompFrame.value))
        decreases |rest|
      {
        var colon, line := Find(rest, ":"), Find(rest, "\n");
        if colon == None || line == None || line.value < colon.value {
          return rest, true;
        }
        stompFrame := Some(stompFrame.value[rest[..colon.value] := rest[colon.value + 1..line.value]]);
        rest := rest[line.value + 1..];
      }
      threw := rest == "";
    }

    method GenerateError(errorType: string, errorDescription: string, receipt: bool)
      requires stompFrame.Some?
      modifies this`stompFrame
      ensures stompFrame == Some(ToTable(Error(errorType, thisMessage, errorDescription,
                                   if receipt then Some(Get(old(stompFrame.value), "receipt")) else None)))
    {
      var error := map["FrameType" := "ERROR", "errorType" := errorType, "errorDescription" := errorDescription,
                       "originalMessage" := thisMessage];
      stompFrame := Some(if receipt then error["receipt-id" := Get(stompFrame.value, "receipt")] else error);
    }

    method GenerateReceipt()
      requires stompFrame.Some?
      modifies this`stompFrame
      ensures stompFrame == Some(ToTable(Receipt(Get(old(stompFrame.value), "receipt"))))
    {
      stompFrame := Some(map["FrameType" := "RECEIPT", "receipt-id" := Get(stompFrame.value, "receipt")]);
    }

    method Conclude(receipt: bool)
      requires stompFrame.Some?
      modifies this`stompFrame
      ensures stompFrame == if receipt then Some(ToTable(Receipt(Get(old(stompFrame.value), "receipt")))) else None
    {
      if receipt {
        GenerateReceipt();
      } else {
        stompFrame := None;
      }
    }

    /** First login of a name. */
    method LoginNew(username: string, passcode: string)
      requires connections.Valid() && username !in connections.users
      modifies this`stompFrame, connections
      ensures connections.Valid() && connections.sent == old(connections.sent)
      ensures fresh(connections.users.Values - old(connections.users.Values))
      ensures connections.state == B.Attach(old(connections.state), connectionId, username,
                                            B.User(passcode, true, 0, map[]))
      ensures stompFrame == Some(ToTable(Connected))
    {
      hide WorldCupConnections.Valid;
      hide Names;
      ghost var v := connections.state;
      var s := new User(username, passcode, true);
      connections.AddUser(s);
      AttachOverwrites(v, connectionId, username, s.View(), s.View());
      connections.AttachCIDtoUser(connectionId, s);
      stompFrame := Some(map["FrameType" := "CONNECTED", "accept-version" := "1.2"]);
    }

    /** A known user logs in again. */
    method LoginAgain(s: User)
      requires connections.Valid() && connections.Registered(s)
      modifies this`stompFrame, connections`mapCIDtoUser, connections`state, s
      ensures connections.Valid()
      ensures connections.state == B.Attach(old(connections.state), connectionId, s.userName,
                                            old(s.View()).(connected := true))
      ensures stompFrame == Some(ToTable(Connected))
    {
      ghost var v, u := connections.state, s.View();
      stompFrame := Some(map["FrameType" := "CONNECTED", "accept-version" := "1.2"]);
      connections.AttachCIDtoUser(connectionId, s);
      s.ConnectUser();
      connections.UserChanged(s);
      AttachOverwrites(v, connectionId, s.userName, u, u.(connected := true));
    }

    method TryToLogin(receipt: bool)
      requires stompFrame.Some? && connections.Valid()
      modifies this`stompFrame, connections, connections.users.Values
      ensures connections.Valid() && connections.sent == old(connections.sent)
      ensures fresh(connections.users.Values - old(connections.users.Values))
      ensures var o := B.Login(old(connections.state), old(Request("CONNECT", receipt)));
              connections.state == o.state && Left(stompFrame, o) && !o.threw && o.deliveries == []
    {
      hide WorldCupConnections.Valid;
      hide WorldCupConnections.Registered;
      var t := stompFrame.value;
      var username := Get(t, "login");
      connections.UserOfName(username);
      if username !in connections.users {
        if Get(t, "host") != "stomp.cs.bgu.ac.il\n" {
          if Get(t, "accept-version") != "1.2\n" {
            LoginNew(username, Get(t, "passcode"));
          } else {
            GenerateError("Login Error", "The accept-version is wrong!", receipt);
          }
        } else {
          GenerateError("Login Error", "The host is illegal.", receipt);
        }
      } else if connections.users[username].isConnected {
        GenerateError("Login Error", "The user is already Logged in", receipt);
      } else if connections.users[username].password != Get(t, "passcode") {
        GenerateError("Login Error", "The user password is incorrect", receipt);
      } else {
        LoginAgain(connections.users[username]);
      }
    }

    /** The user's table and the topic's list, changed together. */
    method SubscribeUser(s: User, topic: string, id: string) returns (ok: bool)
      requires connections.Valid() && connections.Registered(s)
      modifies connections`currTopics, connections`state, s
      ensures connections.Valid() && (ok <==> id !in old(s.mapIDtoTopic))
      ensures var v := old(connections.state);
              connections.state ==
              if ok
              then B.SetSubs(v, s.userName, old(s.mapIDtoTopic)[id := topic])
                    .(topics := Push(v.topics, topic, s.userName))
              else v
    {
      hide WorldCupConnections.Valid;
      hide Push;
      ok := connections.SubscribeOnly(s, topic, id);
      if ok {
        connections.AddToTopic(topic, s);
      }
    }

    method TryToSubscribeUser(receipt: bool)
      requires stompFrame.Some? && connections.Valid() && connectionId in connections.mapCIDtoUser
      modifies this`stompFrame, connections`currTopics, connections`state, connections.users.Values
      ensures connections.Valid()
      ensures var o := B.Subscribe(old(connections.state), old(Request("SUBSCRIBE", receipt)));
              connections.state == o.state && Left(stompFrame, o) && !o.threw && o.deliveries == []
    {
      hide WorldCupConnections.Valid;
      hide WorldCupConnections.Registered;
      hide Get;
      hide ToTable;
      hide Push;
      var t, c := stompFrame.value, connectionId;
      connections.UserOfConnection(c);
      var s := connections.mapCIDtoUser[c];
      var ok := SubscribeUser(s, Get(t, "destination"), Get(t, "id"));
      if ok {
        Conclude(receipt);
      } else {
        GenerateError("Subscription Error", "User is already subscribed" + " to this subscription id.", receipt);
      }
    }

    /** The user's table and the topic's list, changed together; the list may be missing. */
    method UnsubscribeUser(s: User, id: string) returns (threw: bool)
      requires connections.Valid() && connections.Registered(s) && id in s.mapIDtoTopic
      modifies connections`currTopics, connections`state, s
      ensures connections.Valid()
      ensures var v, subs := old(connections.state), old(s.mapIDtoTopic);
              && (threw <==> subs[id] !in v.topics)
              && connections.state ==
                 (if threw then B.SetSubs(v, s.userName, subs - {id})
                  else B.SetSubs(v, s.userName, subs - {id}).(
                         topics := v.topics[subs[id] := B.RemoveFirst(v.topics[subs[id]], s.userName)]))
    {
      hide WorldCupConnections.Valid;
      hide B.RemoveFirst;
      var topic := s.mapIDtoTopic[id];
      connections.UnsubscribeOnly(s, id);
      threw := connections.RemoveFromTopic(topic, s);
    }

    method TryToUnsubscribeUser(receipt: bool) returns (threw: bool)
      requires stompFrame.Some? && connections.Valid() && connectionId in connections.mapCIDtoUser
      modifies this`stompFrame, connections`currTopics, connections`state, connections.users.Values
      ensures connections.Valid()
      ensures var o := B.Unsubscribe(old(connections.state), old(Request("UNSUBSCRIBE", receipt)));
              connections.state == o.state && threw == o.threw && (!threw ==> Left(stompFrame, o)) && o.deliveries == []
    {
      hide WorldCupConnections.Valid;
      hide WorldCupConnections.Registered;
      hide ToTable;
      hide B.RemoveFirst;
      var c, id := connectionId, Get(stompFrame.value, "id");
      connections.UserOfConnection(c);
      var s := connections.mapCIDtoUser[c];
      threw := false;
      if id in s.mapIDtoTopic {
        threw := UnsubscribeUser(s, id);
        if !threw {
          Conclude(receipt);
        }
      } else {
        GenerateError("Unsubscribe Error", "the user is trying to unsubscribe" + " from non-existing id.", receipt);
      }
    }

    /** The loop over the leaver's topics, in whatever order its table yields them. */
    method LeaveTopics(s: User) returns (threw: bool, ghost left: set<string>)
      requires connections.Valid() && connections.Registered(s)
      modifies connections`currTopics, connections`state
      ensures connections.Valid() && left <= s.mapIDtoTopic.Keys && (!threw ==> left == {})
      ensures threw <==> !(s.mapIDtoTopic.Values <= old(connections.state).topics.Keys)
      ensures var v := old(connections.state);
              connections.state == v.(topics := B.Leave(v.topics, s.mapIDtoTopic - left, s.userName))
    {
      hide WorldCupConnections.ValidExcept;
      hide WorldCupConnections.Valid;
      hide User.View;
      hide Names;
      hide B.Leave;
      hide B.RemoveTimes;
      hide B.RemoveFirst;
      var subs := s.mapIDtoTopic;
      ghost var v := connections.state;
      var todo := subs.Keys;
      LeaveNothing(v.topics, subs, s.userName);
      while todo != {}
        invariant connections.Valid() && connections.Registered(s) && todo <= subs.Keys
        invariant connections.state == v.(topics := B.Leave(v.topics, subs - todo, s.userName))
        invariant connections.state.topics.Keys == v.topics.Keys
        invariant forall id :: id in subs && id !in todo ==> subs[id] in v.topics
        decreases |todo|
      {
        var id :| id in todo;
        threw := connections.RemoveFromTopic(subs[id], s);
        if threw {
          left := todo;
          return;
        }
        LeaveOneMore(v.topics, subs, todo, id, s.userName);
        todo := todo - {id};
      }
      assert subs - {} == subs;
      threw, left := false, {};
    }

    method TryToDisconnect(receipt: bool) returns (threw: bool)
      requires stompFrame.Some? && connections.Valid() && connectionId in connections.mapCIDtoUser && receipt
      modifies this`stompFrame, connections`currTopics, connections`state
      ensures connections.Valid()
      ensures var v, q := old(connections.state), old(Request("DISCONNECT", receipt));
              var o := B.SignOff(v, q);
              && threw == o.threw && o.deliveries == []
              && (if threw then HalfWay(v, q, connections.state)
                 else connections.state == o.state && Left(stompFrame, o))
    {
      hide WorldCupConnections.Valid;
      hide WorldCupConnections.Registered;
      hide ToTable;
      hide B.Leave;
      var c := connectionId;
      connections.UserOfConnection(c);
      var s := connections.mapCIDtoUser[c];
      assert s.View() == B.UserAt(connections.state, c);
      ghost var left;
      threw, left := LeaveTopics(s);
      if !threw {
        assert s.mapIDtoTopic - {} == s.mapIDtoTopic;
        GenerateReceipt();
      }
    }

    /** Numbers a message and sends a copy to every entry on the destination's list. */
    method Relay(dest_id: string, destination: string, body: string) returns (threw: bool)
      requires connections.Valid()
      modifies connections`messageId, connections`sent, connections`state
      ensures connections.Valid()
      ensures connections.state == old(connections.state).(messageId := old(connections.state).messageId + 1)
      ensures var v := old(connections.state);
              var f := Message(dest_id, Dec(v.messageId), destination, body);
              if destination !in v.topics then threw && connections.sent == old(connections.sent)
              else
                var (copies, t) := B.Broadcast(v, v.topics[destination], f);
                threw == t && connections.sent == old(connections.sent) + Rendered(copies)
    {
      hide WorldCupConnections.Valid;
      hide WorldCupConnections.Registered;
      hide ToTable;
      hide HashmapToStomp;
      hide Render;
      hide Rendered;
      ghost var v := connections.state;
      connections.TopicsAndCounter(destination);
      var id := connections.GetMsgID();
      ghost var f := Message(dest_id, id, destination, body);
      var msg := HashmapToStomp(ToTable(Message(dest_id, id, destination, body)));
      RenderedTable(f);
      connections.TopicsAndCounter(destination);
      if destination !in connections.currTopics {
        return true;
      }
      BroadcastIgnoresCounter(v, v.topics[destination], f);
      threw := connections.SendChannel(destination, msg, f);
    }

    method BuildMessage(receipt: bool) returns (threw: bool, ghost pick: string)
      requires stompFrame.Some? && connections.Valid() && connectionId in connections.mapCIDtoUser
      modifies this`stompFrame, connections`messageId, connections`sent, connections`state
      ensures connections.Valid()
      ensures Chosen(old(connections.state), old(Request("SEND", receipt)), pick)
      ensures var o := B.Send(old(connections.state), old(Request("SEND", receipt)), pick);
              && connections.state == o.state && threw == o.threw
              && connections.sent == old(connections.sent) + Rendered(o.deliveries)
              && (!threw ==> Left(stompFrame, o))
    {
      hide WorldCupConnections.Valid;
      hide WorldCupConnections.Registered;
      hide ToTable;
      var c, t := connectionId, stompFrame.value;
      connections.UserOfConnection(c);
      var s := connections.mapCIDtoUser[c];
      var destination := Get(t, "destination");
      var dest_id := s.GetIDfromTopicName(destination);
      pick, threw := "", false;
      if dest_id == None {
        GenerateError("SEND command error", "destination not found.", receipt);
      } else {
        pick := dest_id.value;
        threw := Relay(dest_id.value, destination, Get(t, "game_updates"));
        if !threw {
          Conclude(receipt);
        }
      }
    }

    /** The part of process that turns the text into the table. */
    method Read(message: string) returns (frameType: string, receipt: bool, threw: bool)
      requires stompFrame == Some(map[])
      modifies this`stompFrame, this`thisMessage
      ensures stompFrame.Some?
      ensures threw <==> Parse(message) == None
      ensures !threw ==> Parse(message) == Some(Received(frameType, stompFrame.value, receipt))
                         && thisMessage == message[..|message| - 1]
    {
      var line := Find(message, "\n");
      if line == None {
        return "", false, true;
      }
      thisMessage := message[..|message| - 1];
      frameType := message[..line.value];
      var rest;
      rest, threw := ReadStompHeaders(message[line.value + 1..]);
      if threw {
        return frameType, false, true;
      }
      receipt := "receipt" in stompFrame.value;
      if rest != "\n" {
        stompFrame := Some(stompFrame.value["game_updates" := rest[1..]]);
      }
      stompFrame := Some(stompFrame.value["FrameType" := frameType]);
    }

    /** The handler of a logged-in user's frame that has passed its validator. */
    method Act(frameType: string, receipt: bool) returns (threw: bool, ghost pick: string)
      requires stompFrame.Some? && connections.Valid() && connectionId in connections.state.byConn
      requires B.Objection(frameType, stompFrame.value, receipt) == None && frameType != "CONNECT"
      modifies this`stompFrame, connections`messageId, connections`sent, connections`currTopics, connections`state,
               connections.users.Values
      ensures connections.Valid()
      ensures PicksForSend(old(connections.state), old(Request(frameType, receipt)), pick)
      ensures var q := old(Request(frameType, receipt));
              var o := B.Dispatch(old(connections.state), q, pick);
              threw == o.threw && (!threw ==> Left(stompFrame, o)) &&
              (if LosesWay(old(connections.state), q)
               then HalfWay(old(connections.state), q, connections.state) && connections.sent == old(connections.sent)
               else connections.state == o.state && connections.sent == old(connections.sent) + Rendered(o.deliveries))
    {
      hide WorldCupConnections.Valid;
      hide WorldCupConnections.Registered;
      hide B.Send;
      hide B.Subscribe;
      hide B.Unsubscribe;
      hide B.SignOff;
      hide B.Objection;
      hide B.Picks;
      hide ToTable;
      hide Names;
      connections.UserOfConnection(connectionId);
      D.KindsUnobjected(frameType, stompFrame.value, receipt);
      pick, threw := "", false;
      if frameType == "SEND" {
        threw, pick := BuildMessage(receipt);
      } else if frameType == "SUBSCRIBE" {
        TryToSubscribeUser(receipt);
      } else if frameType == "UNSUBSCRIBE" {
        threw := TryToUnsubscribeUser(receipt);
      } else {
        threw := TryToDisconnect(receipt);
      }
    }

    /** The handler of a frame that has passed its validator. */
    method Dispatch(frameType: string, receipt: bool) returns (threw: bool, ghost pick: string)
      requires stompFrame.Some? && connections.Valid()
      requires B.Objection(frameType, stompFrame.value, receipt) == None
      requires connectionId in connections.state.byConn || frameType == "CONNECT"
      modifies this`stompFrame, connections, connections.users.Values
      ensures connections.Valid()
      ensures fresh(connections.users.Values - old(connections.users.Values))
      ensures PicksForSend(old(connections.state), old(Request(frameType, receipt)), pick)
      ensures var q := old(Request(frameType, receipt));
              var o := B.Dispatch(old(connections.state), q, pick);
              threw == o.threw && (!threw ==> Left(stompFrame, o)) &&
              (if LosesWay(old(connections.state), q)
               then HalfWay(old(connections.state), q, connections.state) && connections.sent == old(connections.sent)
               else connections.state == o.state && connections.sent == old(connections.sent) + Rendered(o.deliveries))
    {
      hide WorldCupConnections.Valid;
      hide WorldCupConnections.Registered;
      hide B.Login;
      hide B.Send;
      hide B.Subscribe;
      hide B.Unsubscribe;
      hide B.SignOff;
      hide B.Objection;
      hide ToTable;
      pick, threw := "", false;
      if frameType == "CONNECT" {
        TryToLogin(receipt);
      } else {
        threw, pick := Act(frameType, receipt);
      }
    }

    method Answer(frameType: string, receipt: bool) returns (threw: bool, ghost pick: string)
      requires stompFrame.Some? && connections.Valid()
      modifies this`stompFrame, connections, connections.users.Values
      ensures connections.Valid()
      ensures fresh(connections.users.Values - old(connections.users.Values))
      ensures PicksForSend(old(connections.state), old(Request(frameType, receipt)), pick)
      ensures var q := old(Request(frameType, receipt));
              var o := B.Handle(old(connections.state), q, pick);
              threw == o.threw && (!threw ==> Left(stompFrame, o)) &&
              (if LosesWay(old(connections.state), q)
               then HalfWay(old(connections.state), q, connections.state) && connections.sent == old(connections.sent)
               else connections.state == o.state && connections.sent == old(connections.sent) + Rendered(o.deliveries))
    {
      hide B.Dispatch;
      hide B.Leave;
      hide Render;
      hide ToTable;
      hide B.SignOff;
      hide WorldCupConnections.Valid;
      hide WorldCupConnections.Registered;
      hide B.Objection;
      pick, threw := "", false;
      var c := connectionId;
      connections.UserOfConnection(c);
      if c !in connections.mapCIDtoUser && frameType != "CONNECT" {
        GenerateError("Not logged in error", "client cannot make any action" + " before logging in user.", receipt);
      } else {
        match B.Objection(frameType, stompFrame.value, receipt)
        case Some(description) => GenerateError("Stomp Syntax Error", description, receipt);
        case None => threw, pick := Dispatch(frameType, receipt);
      }
    }

    /** Sends the reply, and ends the connection after a DISCONNECT. */
    method Finish(frameType: string, ghost f: Option<Frame>) returns (threw: bool)
      requires connections.Valid()
      requires stompFrame == match f case None => None case Some(reply) => Some(ToTable(reply))
      modifies connections, connections.users.Values
      ensures connections.Valid() && connections.users == old(connections.users)
      ensures var r := B.Reply(old(connections.state), connectionId, frameType, f);
              && threw == r.threw && connections.state == r.state
              && connections.sent == old(connections.sent) + Rendered(r.sent)
    {
      hide WorldCupConnections.Valid;
      hide WorldCupConnections.Registered;
      threw := false;
      if stompFrame.Some? {
        RenderedTable(f.value);
        var c := connectionId;
        threw := connections.SendTo(c, HashmapToStomp(stompFrame.value));
        if !threw && frameType == "DISCONNECT" {
          threw := connections.Disconnect(c);
        }
      }
    }

    /** One message: what the state machine says of it, or how far its clean-up came before it threw. */
    method Process(message: string) returns (threw: bool, ghost pick: string)
      requires stompFrame == Some(map[]) && connections.Valid()
      modifies this`stompFrame, this`thisMessage, connections, connections.users.Values
      ensures connections.Valid()
      ensures fresh(connections.users.Values - old(connections.users.Values))
      ensures var q := B.RequestOf(connectionId, message);
              q.Some? ==> PicksForSend(old(connections.state), q.value, pick)
      ensures var v, q := old(connections.state), B.RequestOf(connectionId, message);
              var r := B.Process(v, connectionId, message, pick);
              threw == r.threw &&
              (if q.Some? && LosesWay(v, q.value)
               then HalfWay(v, q.value, connections.state) && connections.sent == old(connections.sent)
               else connections.state == r.state && connections.sent == old(connections.sent) + Rendered(r.sent))
    {
      hide WorldCupConnections.Valid;
      hide Names;
      hide Parse;
      hide ToTable;
      hide B.Process;
      hide B.Handle;
      hide B.Reply;
      hide B.RequestOf;
      hide PicksForSend;
      hide LosesWay;
      hide Rendered;
      ghost var v := connections.state;
      pick := "";
      var frameType, receipt;
      frameType, receipt, threw := Read(message);
      ProcessUnfolds(v, connectionId, message, pick);
      if !threw {
        ghost var q := Request(frameType, receipt);
        threw, pick := Answer(frameType, receipt);
        ProcessUnfolds(v, connectionId, message, pick);
        if LosesWay(v, q) {
          LosingThrows(v, q, pick);
        }
        if !threw {
          ghost var o := B.Handle(v, q, pick);
          threw := Finish(frameType, o.reply);
        }
      }
    }
  }

  /** The shape of one step: nothing for an unreadable text, else the handler and then the reply. */
  lemma ProcessUnfolds(v: B.State, c: int, message: string, pick: string)
    ensures match Parse(message)
            case None => B.RequestOf(c, message) == None && B.Process(v, c, message, pick) == B.Result(v, [], true)
            case Some(m) =>
              var q := B.Request(c, m.kind, m.table, m.receipt, message[..|message| - 1]);
              var o := B.Handle(v, q, pick);
              var r := B.Reply(o.state, c, m.kind, o.reply);
              && B.RequestOf(c, message) == Some(q)
              && B.Process(v, c, message, pick) ==
                 (if o.threw then B.Result(o.state, o.deliveries, true)
                  else B.Result(r.state, o.deliveries + r.sent, r.threw))
              && Rendered(o.deliveries + r.sent) == Rendered(o.deliveries) + Rendered(r.sent)
    ensures Rendered([]) == []
  {
    hide B.Handle;
    hide B.Reply;
    match Parse(message)
    case None =>
    case Some(m) =>
      var o := B.Handle(v, B.Request(c, m.kind, m.table, m.receipt, message[..|message| - 1]), pick);
      RenderedTogether(o.deliveries, B.Reply(o.state, c, m.kind, o.reply).sent);
  }

  lemma {:induction false} RenderedTogether(a: seq<(int, Frame)>, b: seq<(int, Frame)>)
    ensures Rendered(a + b) == Rendered(a) + Rendered(b)
    decreases a
  {
    if a == [] {
      assert a + b == b;
    } else {
      assert (a + b)[1..] == a[1..] + b;
      RenderedTogether(a[1..], b);
    }
  }

  lemma LeaveNothing(topics: map<string, seq<string>>, subs: Table, name: string)
    ensures B.Leave(topics, subs - subs.Keys, name) == topics
  {
    assert forall t :: B.IdsOf(subs - subs.Keys, t) == {};
  }

  lemma {:induction false} OneMoreTime(l: seq<string>, u: string, n: nat)
    ensures B.RemoveFirst(B.RemoveTimes(l, u, n), u) == B.RemoveTimes(l, u, n + 1)
    decreases n
  {
    if n == 0 {
    } else {
      OneMoreTime(B.RemoveFirst(l, u), u, n - 1);
    }
  }

  /** Taking one more of a user's ids off the list to do takes one more entry out of that id's topic. */
  lemma LeaveOneMore(topics: map<string, seq<string>>, subs: Table, left: set<string>, id: string, name: string)
    requires id in left && left <= subs.Keys && subs[id] in topics
    ensures var before := B.Leave(topics, subs - left, name);
            B.Leave(topics, subs - (left - {id}), name)
            == before[subs[id] := B.RemoveFirst(before[subs[id]], name)]
  {
    var t := subs[id];
    assert B.IdsOf(subs - (left - {id}), t) == B.IdsOf(subs - left, t) + {id};
    OneMoreTime(topics[t], name, |B.IdsOf(subs - left, t)|);
    forall x | x != t ensures B.IdsOf(subs - (left - {id}), x) == B.IdsOf(subs - left, x) {
    }
  }

  lemma {:induction false} BroadcastIgnoresCounter(v: B.State, names: seq<string>, f: Frame)
    ensures B.Broadcast(v.(messageId := v.messageId + 1), names, f) == B.Broadcast(v, names, f)
    decreases names
  {
    if names == [] {
    } else {
      BroadcastIgnoresCounter(v, names[1..], f);
    }
  }
}
