/** The server's shared tables as objects, each method tied to the broker's state machine. */
module WorldCupConnections {
  import opened Wrappers
  import opened Text
  import opened Frames
  import B = Broker

  class User {
    const userName: string
    const password: string
    var isConnected: bool
    var cID: int
    var mapIDtoTopic: Table

    function View(): B.User
      reads this
    {
      B.User(password, isConnected, cID, mapIDtoTopic)
    }

    constructor (userName: string, password: string, isConnected: bool)
      ensures this.userName == userName && View() == B.User(password, isConnected, 0, map[])
    {
      this.userName, this.password, this.isConnected := userName, password, isConnected;
      this.cID, this.mapIDtoTopic := 0, map[];
    }

    method ConnectUser()
      modifies this
      ensures View() == old(View()).(connected := true)
    {
      isConnected := true;
    }

    method DisconnectUser()
      modifies this
      ensures View() == old(View()).(connected := false, cid := -1, subs := map[])
    {
      isConnected := false;
      mapIDtoTopic := map[];
      cID := -1;
    }

    method Subscribe(topic: string, subId: string) returns (ok: bool)
      modifies this
      ensures ok <==> subId !in old(mapIDtoTopic)
      ensures View() == if ok then old(View()).(subs := old(mapIDtoTopic)[subId := topic]) else old(View())
    {
      if subId in mapIDtoTopic {
        return false;
      }
      mapIDtoTopic := mapIDtoTopic[subId := topic];
      return true;
    }

    method Unsubscribe(id: string)
      modifies this
      ensures View() == old(View()).(subs := old(mapIDtoTopic) - {id})
    {
      mapIDtoTopic := mapIDtoTopic - {id};
    }

    method SetConnectionID(connectionId: int)
      modifies this
      ensures View() == old(View()).(cid := connectionId)
    {
      cID := connectionId;
    }

    /** The first id, in the table's own order, that maps to the destination. */
    method GetIDfromTopicName(destination: string) returns (id: Option<string>)
      ensures id.Some? ==> B.Picks(mapIDtoTopic, destination, id.value)
      ensures id.None? <==> destination !in mapIDtoTopic.Values
    {
      var left := mapIDtoTopic.Keys;
      while left != {}
        invariant left <= mapIDtoTopic.Keys
        invariant forall k :: k in mapIDtoTopic && k !in left ==> mapIDtoTopic[k] != destination
        decreases |left|
      {
        var k :| k in left;
        if mapIDtoTopic[k] == destination {
          return Some(k);
        }
        left := left - {k};
      }
      return None;
    }
  }

  /** ArrayList.remove takes the first entry that is this user. */
  function RemoveUser(l: seq<User>, u: User): seq<User> {
    if l == [] then [] else if l[0] == u then l[1..] else [l[0]] + RemoveUser(l[1..], u)
  }

  lemma {:induction false} RemoveUserNames(l: seq<User>, u: User)
    requires forall i :: 0 <= i < |l| && l[i].userName == u.userName ==> l[i] == u
    ensures Names(RemoveUser(l, u)) == B.RemoveFirst(Names(l), u.userName)
    ensures forall x :: x in RemoveUser(l, u) ==> x in l
  {
    if l == [] {
      assert Names(l) == [];
    } else {
      assert Names(l)[0] == l[0].userName && Names(l)[1..] == Names(l[1..]);
      if l[0] != u {
        RemoveUserNames(l[1..], u);
        assert Names(RemoveUser(l, u)) == [l[0].userName] + Names(RemoveUser(l[1..], u));
      }
    }
  }

  ghost function Names(l: seq<User>): seq<string> {
    seq(|l|, i requires 0 <= i < |l| => l[i].userName)
  }

  function Rendered(frames: seq<(int, Frame)>): seq<(int, string)> {
    if frames == [] then [] else [(frames[0].0, Render(frames[0].1))] + Rendered(frames[1..])
  }

  /** `sent` is what the live handlers have been asked to send, in order; `state` is the broker's view of it all. */
  class WorldCupConnections {
    var messageId: nat
    var currConnections: set<int>
    var currTopics: map<string, seq<User>>
    var users: map<string, User>
    var mapCIDtoUser: map<int, User>
    var sent: seq<(int, string)>
    ghost var state: B.State

    predicate Registered(u: User)
      reads this
    {
      u.userName in users && users[u.userName] == u
    }

    /** Valid, but for what the state says of the users in `except`. */
    ghost predicate ValidExcept(except: set<string>)
      reads this, users.Values
    {
      && (forall n :: n in users ==> users[n].userName == n)
      && (forall t, u :: t in currTopics && u in currTopics[t] ==> u.userName in users && users[u.userName] == u)
      && (forall c :: c in mapCIDtoUser ==>
          mapCIDtoUser[c].userName in users && users[mapCIDtoUser[c].userName] == mapCIDtoUser[c])
      && state.users.Keys == users.Keys
      && (forall n :: n in users && n !in except ==> state.users[n] == users[n].View())
      && state.topics.Keys == currTopics.Keys
      && (forall t :: t in currTopics ==> state.topics[t] == Names(currTopics[t]))
      && state.byConn.Keys == mapCIDtoUser.Keys
      && (forall c :: c in mapCIDtoUser ==> state.byConn[c] == mapCIDtoUser[c].userName)
      && state.handlers == currConnections && state.messageId == messageId
    }

    ghost predicate Valid()
      reads this, users.Values
    {
      ValidExcept({})
    }

    /** What the state says of a connection's user. */
    lemma UserOfConnection(c: int)
      requires Valid()
      ensures c in mapCIDtoUser <==> c in state.byConn
      ensures c in mapCIDtoUser ==>
                var u := mapCIDtoUser[c];
                Registered(u) && u in users.Values && state.byConn[c] == u.userName && B.UserAt(state, c) == u.View()
    {
    }

    /** And of a name. */
    lemma UserOfName(name: string)
      requires Valid()
      ensures name in users <==> name in state.users
      ensures name in users ==>
                var u := users[name];
                Registered(u) && u in users.Values && u.userName == name && state.users[name] == u.View()
    {
    }

    lemma TopicsAndCounter(topic: string)
      requires Valid()
      ensures (topic in currTopics <==> topic in state.topics) && messageId == state.messageId
    {
    }

    /** After a change to one user object the state shows it under that user's name. */
    ghost method UserChanged(u: User)
      requires ValidExcept({u.userName}) && Registered(u)
      modifies this`state
      ensures Valid() && state == old(state).(users := old(state).users[u.userName := u.View()])
    {
      state := state.(users := state.users[u.userName := u.View()]);
    }

    constructor ()
      ensures Valid() && state == B.Start && sent == [] && users == map[]
    {
      messageId, currConnections, sent := 0, {}, [];
      currTopics, users, mapCIDtoUser := map[], map[], map[];
      state := B.Start;
    }

    /** Sending to a connection without a handler throws. */
    method SendTo(connectionId: int, msg: string) returns (threw: bool)
      requires Valid()
      modifies this`sent
      ensures Valid() && (threw <==> connectionId !in state.handlers)
      ensures sent == if threw then old(sent) else old(sent) + [(connectionId, msg)]
    {
      if connectionId !in currConnections {
        return true;
      }
      sent := sent + [(connectionId, msg)];
      return false;
    }

    /** One copy to each user listed under the channel. */
    method SendChannel(channel: string, msg: string, ghost f: Frame) returns (threw: bool)
      requires Valid() && channel in state.topics && msg == Render(f)
      modifies this`sent
      ensures Valid()
      ensures var (copies, t) := B.Broadcast(state, state.topics[channel], f);
              threw == t && sent == old(sent) + Rendered(copies)
    {
      var list := currTopics[channel];
      ghost var names := state.topics[channel];
      for i := 0 to |list|
        invariant Valid()
        invariant var (copies, t) := B.Broadcast(state, names, f);
                  var (rest, t') := B.Broadcast(state, names[i..], f);
                  t == t' && old(sent) + Rendered(copies) == sent + Rendered(rest)
      {
        assert names[i..][0] == list[i].userName && names[i..][1..] == names[i + 1..];
        assert list[i] in list;
        assert B.UserOf(state, list[i].userName).cid == list[i].cID;
        threw := SendTo(list[i].cID, msg);
        if threw {
          return;
        }
        OneCopySent(state, names[i..], f, sent[..|sent| - 1]);
      }
      assert names[|list|..] == [];
      threw := false;
    }

    /** The connection leaves both tables. */
    method Detach(connectionId: int)
      requires Valid()
      modifies this`mapCIDtoUser, this`currConnections, this`state
      ensures Valid()
      ensures state == old(state).(byConn := old(state).byConn - {connectionId},
              handlers := old(state).handlers - {connectionId})
    {
      mapCIDtoUser := mapCIDtoUser - {connectionId};
      currConnections := currConnections - {connectionId};
      state := state.(byConn := state.byConn - {connectionId}, handlers := state.handlers - {connectionId});
    }

    method SignOffUser(u: User)
      requires Valid() && Registered(u)
      modifies u, this`state
      ensures Valid() && u.View() == old(u.View()).(connected := false, cid := -1, subs := map[])
      ensures state == old(state).(users := old(state).users[u.userName := u.View()])
    {
      u.DisconnectUser();
      UserChanged(u);
    }

    method Disconnect(connectionId: int) returns (threw: bool)
      requires Valid()
      modifies this, users.Values
      ensures Valid() && users == old(users) && sent == old(sent)
      ensures threw <==> connectionId !in old(state).byConn
      ensures state == if threw then old(state) else B.Disconnect(old(state), connectionId)
    {
      hide Names;
      hide Valid;
      UserOfConnection(connectionId);
      if connectionId !in mapCIDtoUser {
        return true;
      }
      var u := mapCIDtoUser[connectionId];
      SignOffUser(u);
      Detach(connectionId);
      return false;
    }

    /** The put into the table of users. */
    method AddUser(s: User)
      requires Valid() && s.userName !in users
      modifies this`users, this`state
      ensures Valid() && users == old(users)[s.userName := s]
      ensures state == old(state).(users := old(state).users[s.userName := s.View()])
    {
      users := users[s.userName := s];
      state := state.(users := state.users[s.userName := s.View()]);
    }

    /** A topic's list, made at its first use. */
    method CreateTopic(topic: string)
      requires Valid() && topic !in currTopics
      modifies this`currTopics, this`state
      ensures Valid() && topic in currTopics && state == old(state).(topics := old(state).topics[topic := []])
    {
      currTopics := currTopics[topic := []];
      state := state.(topics := state.topics[topic := []]);
    }

    method AppendToTopic(topic: string, s: User)
      requires Valid() && Registered(s) && topic in currTopics
      modifies this`currTopics, this`state
      ensures Valid()
      ensures state == old(state).(topics := old(state).topics[topic := old(state).topics[topic] + [s.userName]])
    {
      hide User.View;
      var list := currTopics[topic];
      assert Names(list + [s]) == Names(list) + [s.userName];
      currTopics := currTopics[topic := list + [s]];
      state := state.(topics := state.topics[topic := state.topics[topic] + [s.userName]]);
    }

    /** Adds a user under a topic, creating the topic's list at its first use. */
    method AddToTopic(topic: string, s: User)
      requires Valid() && Registered(s)
      modifies this`currTopics, this`state
      ensures Valid() && state == old(state).(topics := Push(old(state).topics, topic, s.userName))
    {
      hide Valid;
      TopicsAndCounter(topic);
      hide Names;
      if topic !in currTopics {
        CreateTopic(topic);
      }
      AppendToTopic(topic, s);
      assert state.topics == Push(old(state).topics, topic, s.userName);
    }

    /** Removes a user's first entry under a topic; a topic without a list makes the call throw. */
    method RemoveFromTopic(topic: string, u: User) returns (threw: bool)
      requires Valid() && Registered(u)
      modifies this`currTopics, this`state
      ensures Valid() && (threw <==> topic !in old(state).topics)
      ensures state == if threw then old(state) else
                old(state).(topics := old(state).topics[topic := B.RemoveFirst(old(state).topics[topic], u.userName)])
    {
      if topic !in currTopics {
        return true;
      }
      RemoveUserNames(currTopics[topic], u);
      currTopics := currTopics[topic := RemoveUser(currTopics[topic], u)];
      state := state.(topics := state.topics[topic := B.RemoveFirst(state.topics[topic], u.userName)]);
      return false;
    }

    method MoveUser(connectionId: int, s: User)
      requires Valid() && Registered(s)
      modifies this`state, s
      ensures Valid() && s.View() == old(s.View()).(cid := connectionId)
      ensures state == old(state).(users := old(state).users[s.userName := s.View()])
    {
      s.SetConnectionID(connectionId);
      UserChanged(s);
    }

    method MapConnection(connectionId: int, s: User)
      requires Valid() && Registered(s)
      modifies this`mapCIDtoUser, this`state
      ensures Valid() && state == old(state).(byConn := old(state).byConn[connectionId := s.userName])
    {
      hide User.View;
      hide Names;
      mapCIDtoUser := mapCIDtoUser[connectionId := s];
      state := state.(byConn := state.byConn[connectionId := s.userName]);
    }

    method AttachCIDtoUser(connectionId: int, s: User)
      requires Valid() && Registered(s)
      modifies this`mapCIDtoUser, this`state, s
      ensures Valid() && s.View() == old(s.View()).(cid := connectionId)
      ensures state == B.Attach(old(state), connectionId, s.userName, old(s.View()))
    {
      hide Valid;
      MoveUser(connectionId, s);
      MapConnection(connectionId, s);
    }

    /** The user's own table takes a subscription, unless its id is in use. */
    method SubscribeOnly(s: User, topic: string, id: string) returns (ok: bool)
      requires Valid() && Registered(s)
      modifies this`state, s
      ensures Valid() && (ok <==> id !in old(s.mapIDtoTopic))
      ensures state == if ok then B.SetSubs(old(state), s.userName, old(s.mapIDtoTopic)[id := topic]) else old(state)
    {
      hide User.View;
      hide Names;
      assert state.users[s.userName] == s.View();
      ok := s.Subscribe(topic, id);
      UserChanged(s);
      if !ok {
        assert state.users == old(state).users;
      }
    }

    method UnsubscribeOnly(s: User, id: string)
      requires Valid() && Registered(s)
      modifies this`state, s
      ensures Valid() && state == B.SetSubs(old(state), s.userName, old(s.mapIDtoTopic) - {id})
    {
      assert state.users[s.userName] == s.View();
      s.Unsubscribe(id);
      UserChanged(s);
    }

    method GetMsgID() returns (id: string)
      requires Valid()
      modifies this`messageId, this`state
      ensures Valid() && id == Dec(old(state).messageId)
      ensures state == old(state).(messageId := old(state).messageId + 1)
    {
      id := Dec(messageId);
      messageId := messageId + 1;
      state := state.(messageId := messageId);
    }
  }

  /** What is left to send after one more copy has gone out. */
  lemma OneCopySent(s: B.State, names: seq<string>, f: Frame, sent: seq<(int, string)>)
    requires names != [] && B.UserOf(s, names[0]).cid in s.handlers
    ensures var (rest, t) := B.Broadcast(s, names, f);
            var (rest', t') := B.Broadcast(s, names[1..], f);
            && t == t'
            && sent + Rendered(rest) == sent + [(B.UserOf(s, names[0]).cid, Render(f))] + Rendered(rest')
  {
    hide Render;
    hide B.UserOf;
    var copy := (B.UserOf(s, names[0]).cid, f);
    var rest' := B.Broadcast(s, names[1..], f).0;
    assert B.Broadcast(s, names, f).0 == [copy] + rest';
    FirstRendered(copy, rest', sent);
  }

  lemma FirstRendered(copy: (int, Frame), rest: seq<(int, Frame)>, sent: seq<(int, string)>)
    ensures sent + Rendered([copy] + rest) == sent + [(copy.0, Render(copy.1))] + Rendered(rest)
  {
    hide Render;
    assert ([copy] + rest)[1..] == rest;
  }
}
