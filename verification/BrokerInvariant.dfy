/** The broker's three indexes agree after every frame, exactly when the frame is not of two bad kinds. */
module BrokerInvariant {
  import opened Wrappers
  import opened Frames
  import opened Broker

  /** A logged-in connection belongs to a connected user that knows it. */
  ghost predicate ConnOk(s: State, c: int) {
    c in s.byConn ==>
      s.byConn[c] in s.users && UserAt(s, c).connected && UserAt(s, c).cid == c
  }

  /** A connected user has a logged-in connection with a live handler; any other has no subscription. */
  ghost predicate UserOk(s: State, u: string) {
    u in s.users ==>
      var x := s.users[u];
      && (x.connected ==> x.cid in s.byConn && s.byConn[x.cid] == u && x.cid in s.handlers)
      && (!x.connected ==> x.subs == map[])
  }

  /** A user is listed under a topic once for each of its subscription ids on the topic. */
  ghost predicate TopicOk(s: State, t: string, u: string) {
    multiset(At(s.topics, t))[u] == |IdsOf(UserOf(s, u).subs, t)|
  }

  ghost predicate Inv(s: State) {
    && (forall c :: ConnOk(s, c))
    && (forall u :: UserOk(s, u))
    && (forall t, u :: TopicOk(s, t, u))
  }

  function Without(l: seq<string>, u: string): seq<string> {
    if l == [] then [] else (if l[0] == u then [] else [l[0]]) + Without(l[1..], u)
  }

  lemma {:induction false} RemoveFirstEffect(l: seq<string>, u: string)
    ensures multiset(RemoveFirst(l, u)) == multiset(l) - multiset{u}
    ensures Without(RemoveFirst(l, u), u) == Without(l, u)
  {
    if l == [] {
    } else {
      assert l == [l[0]] + l[1..];
      RemoveFirstEffect(l[1..], u);
      if l[0] != u {
        assert RemoveFirst(l, u)[1..] == RemoveFirst(l[1..], u);
      }
    }
  }

  lemma {:induction false} NothingToDrop(l: seq<string>, u: string)
    requires u !in l
    ensures Without(l, u) == l
  {
    if l == [] {
    } else {
      NothingToDrop(l[1..], u);
    }
  }

  /** Removing a name as often as it occurs drops every occurrence and keeps the rest in order. */
  lemma {:induction false} RemoveTimesEffect(l: seq<string>, u: string, n: nat)
    requires n == multiset(l)[u]
    ensures RemoveTimes(l, u, n) == Without(l, u)
    ensures forall v :: multiset(RemoveTimes(l, u, n))[v] == if v == u then 0 else multiset(l)[v]
    decreases n
  {
    hide RemoveFirst;
    if n == 0 {
      assert u !in multiset(l);
      NothingToDrop(l, u);
    } else {
      RemoveFirstEffect(l, u);
      RemoveTimesEffect(RemoveFirst(l, u), u, n - 1);
    }
  }

  lemma IdsAdded(subs: Table, id: string, d: string, t: string)
    requires id !in subs
    ensures |IdsOf(subs[id := d], t)| == |IdsOf(subs, t)| + (if d == t then 1 else 0)
  {
    if d == t {
      assert IdsOf(subs[id := d], t) == IdsOf(subs, t) + {id};
    } else {
      assert IdsOf(subs[id := d], t) == IdsOf(subs, t);
    }
  }

  lemma IdsRemoved(subs: Table, id: string, t: string)
    requires id in subs
    ensures |IdsOf(subs - {id}, t)| == |IdsOf(subs, t)| - (if subs[id] == t then 1 else 0)
  {
    if subs[id] == t {
      assert IdsOf(subs, t) == IdsOf(subs - {id}, t) + {id};
    } else {
      assert IdsOf(subs - {id}, t) == IdsOf(subs, t);
    }
  }

  lemma IdsExist(subs: Table, id: string)
    requires id in subs
    ensures |IdsOf(subs, subs[id])| >= 1
  {
    assert id in IdsOf(subs, subs[id]);
  }

  lemma SubscribeKeeps(s: State, q: Request)
    requires Inv(s) && q.cid in s.byConn
    ensures Inv(Subscribe(s, q).state)
  {
    hide Get;
    var s' := Subscribe(s, q).state;
    var name, id, d := s.byConn[q.cid], Get(q.table, "id"), Get(q.table, "destination");
    assert ConnOk(s, q.cid) && UserOk(s, name);
    if id !in UserOf(s, name).subs {
      forall c ensures ConnOk(s', c) { assert ConnOk(s, c); }
      forall u ensures UserOk(s', u) { assert UserOk(s, u); }
      forall t, u ensures TopicOk(s', t, u) {
        assert TopicOk(s, t, u);
        IdsAdded(UserOf(s, name).subs, id, d, t);
      }
    }
  }

  lemma UnsubscribeKeeps(s: State, q: Request)
    requires Inv(s) && q.cid in s.byConn
    ensures Inv(Unsubscribe(s, q).state) && !Unsubscribe(s, q).threw
  {
    hide Get;
    var s' := Unsubscribe(s, q).state;
    var name, id := s.byConn[q.cid], Get(q.table, "id");
    var subs := UserOf(s, name).subs;
    assert ConnOk(s, q.cid) && UserOk(s, name);
    if id in subs {
      IdsExist(subs, id);
      assert TopicOk(s, subs[id], name);
      RemoveFirstEffect(s.topics[subs[id]], name);
      forall c ensures ConnOk(s', c) { assert ConnOk(s, c); }
      forall u ensures UserOk(s', u) { assert UserOk(s, u); }
      forall t, u ensures TopicOk(s', t, u) {
        assert TopicOk(s, t, u);
        IdsRemoved(subs, id, t);
      }
    }
  }

  /** A well-formed DISCONNECT leaves no trace of its user in any topic. */
  lemma SignOffKeeps(s: State, q: Request)
    requires Inv(s) && q.cid in s.byConn
    ensures !SignOff(s, q).threw && SignOff(s, q).state.byConn == s.byConn
    ensures Inv(Disconnect(SignOff(s, q).state, q.cid))
    ensures forall t :: t in s.topics ==>
              Disconnect(SignOff(s, q).state, q.cid).topics[t] == Without(s.topics[t], s.byConn[q.cid])
  {
    hide Nobody;
    hide Without;
    var name := s.byConn[q.cid];
    var subs := UserOf(s, name).subs;
    assert ConnOk(s, q.cid) && UserOk(s, name);
    forall t | t in subs.Values ensures t in s.topics {
      var id :| id in subs && subs[id] == t;
      IdsExist(subs, id);
      assert TopicOk(s, t, name);
    }
    var s' := Disconnect(SignOff(s, q).state, q.cid);
    forall c ensures ConnOk(s', c) { assert ConnOk(s, c); }
    forall u ensures UserOk(s', u) { assert UserOk(s, u); }
    forall t | t in s.topics ensures s'.topics[t] == Without(s.topics[t], name) {
      assert TopicOk(s, t, name);
      RemoveTimesEffect(s.topics[t], name, |IdsOf(subs, t)|);
    }
    forall t, u ensures TopicOk(s', t, u) {
      assert TopicOk(s, t, u) && TopicOk(s, t, name);
      assert IdsOf(map[], t) == {};
      if t in s.topics {
        RemoveTimesEffect(s.topics[t], name, |IdsOf(subs, t)|);
      }
    }
  }

  /** Ending a connection without the topic clean-up is harmless only to a user without subscriptions. */
  lemma DisconnectAloneKeeps(s: State, c: int)
    requires Inv(s) && c in s.byConn
    ensures Inv(Disconnect(s, c)) <==> UserAt(s, c).subs == map[]
  {
    var name := s.byConn[c];
    var s', subs := Disconnect(s, c), UserAt(s, c).subs;
    assert ConnOk(s, c) && UserOk(s, name);
    if subs == map[] {
      forall d ensures ConnOk(s', d) { assert ConnOk(s, d); }
      forall u ensures UserOk(s', u) { assert UserOk(s, u); }
      forall t, u ensures TopicOk(s', t, u) { assert TopicOk(s, t, u); }
    } else {
      var id :| id in subs;
      IdsExist(subs, id);
      assert TopicOk(s, subs[id], name);
      assert IdsOf(map[], subs[id]) == {};
      assert !TopicOk(s', subs[id], name);
    }
  }

  predicate LoginAccepted(s: State, q: Request) {
    var name := Get(q.table, "login");
    if name !in s.users
    then Get(q.table, "host") != "stomp.cs.bgu.ac.il\n" && Get(q.table, "accept-version") != "1.2\n"
    else !s.users[name].connected && s.users[name].password == Get(q.table, "passcode")
  }

  lemma FreshLoginKeeps(s: State, q: Request)
    requires Inv(s) && LoginAccepted(s, q) && q.cid !in s.byConn && q.cid in s.handlers
    ensures Inv(Login(s, q).state)
  {
    hide Get;
    var s' := Login(s, q).state;
    assert UserOk(s, Get(q.table, "login"));
    forall c ensures ConnOk(s', c) { assert ConnOk(s, c); }
    forall u ensures UserOk(s', u) { assert UserOk(s, u); }
    forall t, u ensures TopicOk(s', t, u) { assert TopicOk(s, t, u); }
  }

  lemma OtherLoginBreaks(s: State, q: Request)
    requires Inv(s) && LoginAccepted(s, q) && (q.cid in s.byConn || q.cid !in s.handlers)
    ensures !Inv(Login(s, q).state)
  {
    hide Get;
    var s', name := Login(s, q).state, Get(q.table, "login");
    assert UserOk(s, name);
    if q.cid in s.byConn {
      assert ConnOk(s, q.cid) && UserOk(s, s.byConn[q.cid]);
      assert !UserOk(s', s.byConn[q.cid]);
    } else {
      assert !UserOk(s', name);
    }
  }

  /** An accepted login keeps the bijection only on a live connection that has no user yet. */
  lemma LoginKeeps(s: State, q: Request)
    requires Inv(s)
    ensures Inv(Login(s, q).state) <==> !LoginAccepted(s, q) || (q.cid !in s.byConn && q.cid in s.handlers)
  {
    hide Get;
    hide Inv;
    if LoginAccepted(s, q) {
      if q.cid !in s.byConn && q.cid in s.handlers {
        FreshLoginKeeps(s, q);
      } else {
        OtherLoginBreaks(s, q);
      }
    }
  }

  lemma SameTablesKeep(s: State, s': State)
    requires Inv(s) && s'.users == s.users && s'.topics == s.topics && s'.byConn == s.byConn
    requires s.handlers <= s'.handlers
    ensures Inv(s')
  {
    forall c ensures ConnOk(s', c) { assert ConnOk(s, c); }
    forall u ensures UserOk(s', u) { assert UserOk(s, u); }
    forall t, u ensures TopicOk(s', t, u) { assert TopicOk(s, t, u); }
  }

  /** The two kinds of frame that break the indexes. */
  predicate Breaks(s: State, q: Request) {
    var objection := Objection(q.kind, q.table, q.receipt);
    if q.kind == "CONNECT"
    then objection == None && LoginAccepted(s, q) && (q.cid in s.byConn || q.cid !in s.handlers)
    else q.kind == "DISCONNECT" && objection != None && q.cid in s.byConn && UserAt(s, q.cid).subs != map[]
  }

  lemma ConcludeKeeps(s: State, q: Request, o: Outcome)
    requires q.kind != "DISCONNECT"
    ensures Conclude(q, o).state == o.state
  {
  }

  lemma DisconnectFrame(s: State, q: Request, pick: string)
    requires Inv(s) && q.kind == "DISCONNECT"
    ensures Inv(Conclude(q, Handle(s, q, pick)).state) <==> !Breaks(s, q)
  {
    hide Subscribe;
    hide Disconnect;
    if q.cid in s.byConn {
      assert ConnOk(s, q.cid) && UserOk(s, s.byConn[q.cid]);
      if Objection(q.kind, q.table, q.receipt) == None {
        SignOffKeeps(s, q);
      } else {
        DisconnectAloneKeeps(s, q.cid);
      }
    }
  }

  lemma ConnectFrame(s: State, q: Request, pick: string)
    requires Inv(s) && q.kind == "CONNECT"
    ensures Inv(Handle(s, q, pick).state) <==> !Breaks(s, q)
  {
    LoginKeeps(s, q);
  }

  lemma DispatchKeeps(s: State, q: Request, pick: string)
    requires Inv(s) && q.kind != "DISCONNECT" && q.kind != "CONNECT" && q.cid in s.byConn
    requires Objection(q.kind, q.table, q.receipt) == None
    ensures Inv(Dispatch(s, q, pick).state)
  {
    hide Unsubscribe;
    hide Inv;
    if q.kind == "SEND" {
      SameTablesKeep(s, Send(s, q, pick).state);
    } else if q.kind == "SUBSCRIBE" {
      SubscribeKeeps(s, q);
    } else {
      UnsubscribeKeeps(s, q);
    }
  }

  lemma OtherFrame(s: State, q: Request, pick: string)
    requires Inv(s) && q.kind != "DISCONNECT" && q.kind != "CONNECT"
    ensures Inv(Handle(s, q, pick).state)
  {
    if q.cid in s.byConn && Objection(q.kind, q.table, q.receipt) == None {
      DispatchKeeps(s, q, pick);
    } else {
      assert Handle(s, q, pick).state == s;
    }
  }

  /** The indexes agree after a frame if and only if it is not one of the two bad kinds. */
  lemma AgreementExactly(s: State, q: Request, pick: string)
    requires Inv(s)
    ensures Inv(Conclude(q, Handle(s, q, pick)).state) <==> !Breaks(s, q)
  {
    if q.kind == "DISCONNECT" {
      DisconnectFrame(s, q, pick);
    } else {
      ConcludeKeeps(s, q, Handle(s, q, pick));
      if q.kind == "CONNECT" {
        ConnectFrame(s, q, pick);
      } else {
        OtherFrame(s, q, pick);
      }
    }
  }

  /** The server accepts a connection, or receives a message on one. */
  datatype Event = Accepted(conn: int) | Received(conn: int, message: string, pick: string)

  function Step(s: State, e: Event): Result {
    match e
    case Accepted(c) => Result(s.(handlers := s.handlers + {c}), [], false)
    case Received(c, message, pick) => Process(s, c, message, pick)
  }

  predicate Bad(s: State, e: Event) {
    e.Received? && RequestOf(e.conn, e.message).Some? && Breaks(s, RequestOf(e.conn, e.message).value)
  }

  function Run(s: State, run: seq<Event>): State
    decreases run
  {
    if run == [] then s else Run(Step(s, run[0]).state, run[1..])
  }

  predicate Clean(s: State, run: seq<Event>)
    decreases run
  {
    run == [] || (!Bad(s, run[0]) && Clean(Step(s, run[0]).state, run[1..]))
  }

  lemma StepKeeps(s: State, e: Event)
    requires Inv(s)
    ensures Inv(Step(s, e).state) <==> !Bad(s, e)
  {
    match e
    case Accepted(c) => SameTablesKeep(s, Step(s, e).state);
    case Received(c, message, pick) =>
      if RequestOf(c, message).Some? {
        AgreementExactly(s, RequestOf(c, message).value, pick);
      }
  }

  /** The indexes agree throughout every run without a bad frame. */
  lemma {:induction false} AgreementAlways(s: State, run: seq<Event>)
    requires Inv(s) && Clean(s, run)
    ensures Inv(Run(s, run))
    decreases run
  {
    if run == [] {
    } else {
      StepKeeps(s, run[0]);
      AgreementAlways(Step(s, run[0]).state, run[1..]);
    }
  }

  lemma StartAgrees()
    ensures Inv(Start)
  {
    forall t, u ensures TopicOk(Start, t, u) {
      assert IdsOf(map[], t) == {};
    }
  }
}
