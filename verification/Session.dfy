/**
 One client's session with the server: its commands travel in order, the server's answers may
 overtake one another, and other connections do what they like meanwhile.
 */
module Session {
  import opened Wrappers
  import opened Text
  import opened Frames
  import opened ClientUser
  import opened ClientFrames
  import C = Codec
  import B = Broker
  import I = BrokerInvariant
  import D = BrokerDelivery

  lemma RequestHandled(s: B.State, c: int, text: string, kind: string, headers: Table, pick: string)
    requires Means(text, kind, headers) && c in s.byConn
    ensures B.RequestOf(c, text).Some?
    ensures var q := B.RequestOf(c, text).value;
            && q.cid == c && q.kind == kind && q.receipt && (forall k :: k in headers ==> Get(q.table, k) == headers[k])
            && B.Process(s, c, text, pick) == B.Conclude(q, B.Dispatch(s, q, pick))
            && B.Handle(s, q, pick) == B.Dispatch(s, q, pick)
            && B.Objection(kind, q.table, true) == None
  {
    hide D.FrameTable;
    hide B.Objection;
    hide B.Dispatch;
    hide B.Conclude;
    hide Parse;
  }

  lemma LiveHandler(s: B.State, c: int)
    requires I.Inv(s) && c in s.byConn
    ensures c in s.handlers && s.byConn[c] in s.users
  {
    assert I.ConnOk(s, c) && I.UserOk(s, s.byConn[c]);
  }

  /** A SUBSCRIBE under a new id is accepted. */
  lemma ServeSubscribe(s: B.State, c: int, text: string, destination: string, id: string, receipt: string, pick: string)
    requires I.Inv(s) && c in s.byConn && id !in B.UserAt(s, c).subs
    requires Means(text, "SUBSCRIBE", map["destination" := destination, "id" := id, "receipt" := receipt])
    ensures var r := B.Process(s, c, text, pick);
            && !r.threw && r.sent == [(c, Receipt(receipt))] && c in r.state.byConn
            && B.UserAt(r.state, c).subs == B.UserAt(s, c).subs[id := destination]
            && I.Inv(r.state)
  {
    hide Parse;
    hide Means;
    hide B.Objection;
    hide B.Process;
    hide B.Handle;
    hide Push;
    hide Get;
    hide I.Inv;
    var headers := map["destination" := destination, "id" := id, "receipt" := receipt];
    RequestHandled(s, c, text, "SUBSCRIBE", headers, pick);
    LiveHandler(s, c);
    var q := B.RequestOf(c, text).value;
    assert Get(q.table, "id") == id && Get(q.table, "destination") == destination && Get(q.table, "receipt") == receipt;
    I.SubscribeKeeps(s, q);
  }

  /** An UNSUBSCRIBE gets its receipt exactly if the id is there; the id is gone in any case. */
  lemma ServeUnsubscribe(s: B.State, c: int, text: string, id: string, receipt: string, pick: string)
    requires I.Inv(s) && c in s.byConn
    requires Means(text, "UNSUBSCRIBE", map["id" := id, "receipt" := receipt])
    ensures var r := B.Process(s, c, text, pick);
            && !r.threw && c in r.state.byConn && I.Inv(r.state)
            && B.UserAt(r.state, c).subs == B.UserAt(s, c).subs - {id}
            && |r.sent| == 1 && r.sent[0].0 == c
            && (if id in B.UserAt(s, c).subs then r.sent[0].1 == Receipt(receipt)
               else r.sent[0].1.Error? && r.state == s)
  {
    hide B.SignOff;
    hide Parse;
    hide Means;
    hide B.Objection;
    hide B.Process;
    hide B.Handle;
    hide B.RemoveFirst;
    hide Get;
    hide I.Inv;
    var headers := map["id" := id, "receipt" := receipt];
    RequestHandled(s, c, text, "UNSUBSCRIBE", headers, pick);
    LiveHandler(s, c);
    var q := B.RequestOf(c, text).value;
    assert Get(q.table, "id") == id && Get(q.table, "receipt") == receipt;
    I.UnsubscribeKeeps(s, q);
    if id !in B.UserAt(s, c).subs {
      assert B.UserAt(s, c).subs - {id} == B.UserAt(s, c).subs;
    }
  }

  /** A DISCONNECT gets its receipt and takes the connection away. */
  lemma ServeDisconnect(s: B.State, c: int, text: string, receipt: string, pick: string)
    requires I.Inv(s) && c in s.byConn
    requires Means(text, "DISCONNECT", map["receipt" := receipt])
    ensures var r := B.Process(s, c, text, pick);
            !r.threw && c !in r.state.byConn && I.Inv(r.state) && r.sent == [(c, Receipt(receipt))]
  {
    RequestHandled(s, c, text, "DISCONNECT", map["receipt" := receipt], pick);
    LiveHandler(s, c);
    var q := B.RequestOf(c, text).value;
    hide Means;
    hide B.Objection;
    hide B.Process;
    hide B.Handle;
    hide B.Leave;
    assert Get(q.table, "receipt") == receipt;
    hide Get;
    I.SignOffKeeps(s, q);
    hide I.Inv;
  }

  /** A report's frame: a SEND that asks for no receipt. */
  predicate Publishes(text: string) {
    Parse(text).Some? && Parse(text).value.kind == "SEND" && !Parse(text).value.receipt
  }

  /** It changes no subscription, and the only answer it can get is an ERROR. */
  lemma ServePublish(s: B.State, c: int, text: string, pick: string, d: (int, Frame))
    requires I.Inv(s) && c in s.byConn && Publishes(text)
    ensures var r := B.Process(s, c, text, pick);
            && r.state.byConn == s.byConn && r.state.users == s.users && I.Inv(r.state)
            && (d in r.sent ==> !d.1.Receipt?)
  {
    hide B.SetSubs;
    hide I.Inv;
    hide B.Objection;
    hide Parse;
    hide Dec;
    hide Get;
    var q := B.RequestOf(c, text).value;
    I.StepKeeps(s, I.Received(c, text, pick));
    D.SendFramed(s, q, pick, d);
    D.ReplyDiscipline(s, q, pick);
  }

  /** Nothing about connection c's user has changed. */
  ghost predicate SameFor(s: B.State, s': B.State, c: int) {
    && (c in s.byConn <==> c in s'.byConn)
    && (c in s.byConn ==> s'.byConn[c] == s.byConn[c] && B.UserAt(s', c) == B.UserAt(s, c))
  }

  lemma OtherLogin(s: B.State, q: B.Request, c: int)
    requires I.ConnOk(s, c) && q.cid != c
    ensures SameFor(s, B.Login(s, q).state, c)
  {
    hide Get;
    hide Dec;
  }

  lemma OtherSubscribe(s: B.State, q: B.Request, c: int)
    requires I.ConnOk(s, c) && I.ConnOk(s, q.cid) && q.cid != c && q.cid in s.byConn
    ensures SameFor(s, B.Subscribe(s, q).state, c)
  {
    hide Get;
    hide Push;
  }

  lemma OtherUnsubscribe(s: B.State, q: B.Request, c: int)
    requires I.ConnOk(s, c) && I.ConnOk(s, q.cid) && q.cid != c && q.cid in s.byConn
    ensures SameFor(s, B.Unsubscribe(s, q).state, c)
  {
    hide Get;
    hide B.RemoveFirst;
  }

  lemma OtherSignOff(s: B.State, q: B.Request, c: int)
    requires q.cid in s.byConn
    ensures SameFor(s, B.SignOff(s, q).state, c)
  {
    hide Get;
    hide B.Leave;
  }

  lemma OtherSend(s: B.State, q: B.Request, pick: string, c: int)
    ensures SameFor(s, B.Send(s, q, pick).state, c)
  {
    hide Get;
    hide Dec;
    hide B.Broadcast;
  }

  lemma OtherDispatch(s: B.State, q: B.Request, pick: string, c: int)
    requires I.Inv(s) && q.cid != c && (q.cid in s.byConn || q.kind == "CONNECT")
    ensures SameFor(s, B.Dispatch(s, q, pick).state, c)
  {
    hide B.Refuse;
    hide Push;
    assert I.ConnOk(s, c) && I.ConnOk(s, q.cid);
    hide I.Inv;
    hide I.ConnOk;
    hide SameFor;
    hide B.Login;
    hide B.Send;
    hide B.Subscribe;
    hide B.Unsubscribe;
    hide B.SignOff;
    if q.kind == "CONNECT" {
      OtherLogin(s, q, c);
    } else {
      OtherSubscribe(s, q, c);
      OtherUnsubscribe(s, q, c);
      OtherSignOff(s, q, c);
      OtherSend(s, q, pick, c);
    }
  }

  /** What other connections do changes nothing for a logged-in one, and never sends it a RECEIPT. */
  lemma OthersLeaveUsAlone(s: B.State, e: I.Event, c: int, d: (int, Frame))
    requires I.Inv(s) && e.conn != c && !I.Bad(s, e)
    ensures I.Inv(I.Step(s, e).state) && SameFor(s, I.Step(s, e).state, c)
    ensures d in I.Step(s, e).sent && d.0 == c ==> !d.1.Receipt?
  {
    I.StepKeeps(s, e);
    if e.Received? && B.RequestOf(e.conn, e.message).Some? {
      var q := B.RequestOf(e.conn, e.message).value;
      OtherRequest(s, q, e.pick, c);
      OtherAnswers(s, q, e.pick, c, d);
    }
  }

  lemma OtherHandle(s: B.State, q: B.Request, pick: string, c: int)
    requires I.Inv(s) && q.cid != c
    ensures SameFor(s, B.Handle(s, q, pick).state, c)
  {
    hide I.Inv;
    hide B.Dispatch;
    hide B.Objection;
    if (q.cid in s.byConn || q.kind == "CONNECT") && B.Objection(q.kind, q.table, q.receipt) == None {
      OtherDispatch(s, q, pick, c);
    }
  }

  lemma ConnsOk(s: B.State, c: int, d: int)
    requires I.Inv(s)
    ensures I.ConnOk(s, c) && I.ConnOk(s, d)
  {
  }

  lemma OtherRequest(s: B.State, q: B.Request, pick: string, c: int)
    requires I.Inv(s) && q.cid != c
    ensures SameFor(s, B.Conclude(q, B.Handle(s, q, pick)).state, c)
  {
    hide I.Inv;
    hide I.ConnOk;
    hide D.Framed;
    hide SameFor;
    hide B.Handle;
    hide B.Disconnect;
    D.HandleFramed(s, q, pick, (0, Connected));
    OtherHandle(s, q, pick, c);
    ConnsOk(s, c, q.cid);
    if q.kind == "DISCONNECT" {
      OtherDisconnect(s, B.Handle(s, q, pick).state, q.cid, c);
    }
  }

  lemma OtherAnswers(s: B.State, q: B.Request, pick: string, c: int, d: (int, Frame))
    requires q.cid != c
    ensures d in B.Conclude(q, B.Handle(s, q, pick)).sent && d.0 == c ==> !d.1.Receipt?
  {
    D.HandleFramed(s, q, pick, d);
    hide B.Handle;
    hide B.Disconnect;
  }

  lemma OtherDisconnect(s: B.State, s': B.State, d: int, c: int)
    requires SameFor(s, s', c) && I.ConnOk(s, c) && I.ConnOk(s, d) && d != c
    requires d in s'.byConn && d in s.byConn ==> s'.byConn[d] == s.byConn[d]
    ensures d in s'.byConn && d in s.byConn ==> SameFor(s, B.Disconnect(s', d), c)
  {
  }

  /** What a frame on its way asks for: places in the client's vectors. */
  datatype What = Subscribe(i: nat, r: nat) | Unsubscribe(i: nat, r: nat) | Disconnect(r: nat) | Publish

  datatype Sent = Sent(text: string, what: What)

  /** An answer on its way, and the number of the request whose handling sent it. */
  datatype Got = Got(frame: Frame, of: Option<nat>)

  /** `asked` is what the user asked for, request by request; `accepted` is how many joins the server has seen. */
  datatype Sys = Sys(
    c: int,
    session: ClientUser.Session,
    asked: seq<(Command, string)>,
    toServer: seq<Sent>,
    toClient: seq<Got>,
    server: B.State,
    accepted: nat,
    leaving: bool)

  datatype Step =
    | DoJoin(game: string)
    | DoExit(game: string)
    | DoLogout
    | DoReport(text: string)
    | Serve(pick: string)
    | Elsewhere(event: I.Event)
    | Take(k: nat)

  function RequestOf(w: What): Option<nat> {
    match w case Subscribe(_, r) => Some(r) case Unsubscribe(_, r) => Some(r) case Disconnect(r) => Some(r)
        case Publish => None
  }

  function ForClient(sent: seq<(int, Frame)>, c: int, of: Option<nat>): (r: seq<Got>)
    ensures forall g :: g in r ==> g.of == of && (c, g.frame) in sent
  {
    if sent == [] then []
    else (if sent[0].0 == c then [Got(sent[0].1, of)] else []) + ForClient(sent[1..], c, of)
  }

  /** A game as a line of input can name it, and whose frame arrives whole (JoinArrivesExactly). */
  predicate Nameable(game: string) {
    '\n' !in game && '\0' !in game
  }

  predicate Can(y: Sys, step: Step) {
    match step
    case DoJoin(game) => !y.leaving && Nameable(game)
    case DoExit(game) => !y.leaving && '\n' !in game
    case DoLogout => !y.leaving
    case DoReport(text) => !y.leaving && Publishes(text) && '\0' !in text
    case Serve(_) => y.toServer != []
    case Elsewhere(e) => e.conn != y.c && !I.Bad(y.server, e)
    case Take(k) => k < |y.toClient|
  }

  function Ask(y: Sys, command: Command, game: string, action: int, text: string, what: What): Sys {
    y.(session := y.session.(receipts := y.session.receipts + [command], actions := y.session.actions + [action]),
       asked := y.asked + [(command, game)], toServer := y.toServer + [Sent(text, what)])
  }

  function Join(y: Sys, game: string): Sys {
    var i, r := |y.session.subscriptions|, |y.session.receipts|;
    Ask(y.(session := y.session.(subscriptions := y.session.subscriptions + [game])),
        ClientUser.Join, game, i, SubscribeText(game, Dec(i), Dec(r)), Subscribe(i, r))
  }

  function Exit(y: Sys, game: string): Sys {
    var i, r := FirstIndex(y.session.subscriptions, game), |y.session.receipts|;
    if i == |y.session.subscriptions| then y
    else Ask(y, ClientUser.Exit, game, i, UnsubscribeText(Dec(i), Dec(r)), Unsubscribe(i, r))
  }

  function Logout(y: Sys): Sys {
    var r := |y.session.receipts|;
    Ask(y.(leaving := true), ClientUser.Logout, "", -1, DisconnectText(Dec(r)), Disconnect(r))
  }

  function Served(y: Sys, pick: string): Sys {
    if y.toServer == [] then y
    else
      var (text, what) := (y.toServer[0].text, y.toServer[0].what);
      var r := B.Process(y.server, y.c, text, pick);
      y.(toServer := y.toServer[1..], server := r.state,
          toClient := y.toClient + ForClient(r.sent, y.c, RequestOf(what)),
         accepted := y.accepted + (if what.Subscribe? then 1 else 0))
  }

  function Do(y: Sys, step: Step): Sys {
    if !Can(y, step) then y
    else
      match step
      case DoJoin(game) => Join(y, game)
      case DoExit(game) => Exit(y, game)
      case DoLogout => Logout(y)
      case DoReport(text) => y.(toServer := y.toServer + [Sent(text, Publish)])
      case Serve(pick) => Served(y, pick)
      case Elsewhere(e) =>
        var r := I.Step(y.server, e);
        y.(server := r.state, toClient := y.toClient + ForClient(r.sent, y.c, None))
      case Take(k) => y.(toClient := y.toClient[..k] + y.toClient[k + 1..])
  }

  /** A session right after CONNECTED: nothing asked, nothing on the way, no subscription at the server. */
  ghost predicate Begins(y: Sys) {
    && I.Inv(y.server) && y.c in y.server.byConn && B.UserAt(y.server, y.c).subs == map[]
    && y.session == NewSession && y.asked == [] && y.toServer == [] && y.toClient == [] && y.accepted == 0 && !y.leaving
  }

  /** Request r stands in the vectors as it was asked. */
  predicate Recorded(session: ClientUser.Session, asked: seq<(Command, string)>, r: nat) {
    && r < |session.receipts| && r < |session.actions| && r < |asked|
    && session.receipts[r] == asked[r].0
    && if asked[r].0 == ClientUser.Logout then asked[r].1 == ""
       else 0 <= session.actions[r] < |session.subscriptions| && session.subscriptions[session.actions[r]] == asked[r].1
  }

  /** A frame on its way has the text of what it asks for. */
  ghost predicate SentOk(session: ClientUser.Session, s: Sent) {
    match s.what
    case Subscribe(i, r) =>
      && i < |session.subscriptions| && r < |session.receipts|
      && Nameable(session.subscriptions[i])
      && s.text == SubscribeText(session.subscriptions[i], Dec(i), Dec(r))
    case Unsubscribe(i, r) =>
      && i < |session.subscriptions| && FirstIndex(session.subscriptions, session.subscriptions[i]) == i
      && r < |session.receipts| && session.receipts[r] == ClientUser.Exit
      && r < |session.actions| && session.actions[r] == i && s.text == UnsubscribeText(Dec(i), Dec(r))
    case Disconnect(r) => r < |session.receipts| && s.text == DisconnectText(Dec(r))
    case Publish => Publishes(s.text) && '\0' !in s.text
  }

  /** The ids of the joins on their way, in order. */
  function JoinIds(q: seq<Sent>): seq<nat> {
    if q == [] then [] else (if q[0].what.Subscribe? then [q[0].what.i] else []) + JoinIds(q[1..])
  }

  /** Ids are handed out in order, so those on their way are the ones the server has not seen. */
  predicate Consecutive(ids: seq<nat>, from: nat, to: nat) {
    from <= to && ids == seq(to - from, k requires 0 <= k => from + k)
  }

  /** The server knows of the user's subscriptions only ids it has seen, each for its own game. */
  ghost predicate SubsOk(session: ClientUser.Session, accepted: nat, subs: Table) {
    forall id :: id in subs ==> exists i: nat :: i < accepted && i < |session.subscriptions| && id == Dec(i)
                                                 && subs[id] == "/" + session.subscriptions[i]
  }

  /** A RECEIPT on its way carries the number of the request it answers. */
  predicate GotOk(session: ClientUser.Session, g: Got) {
    g.frame.Receipt? ==> g.of.Some? && g.of.value < |session.receipts| && g.frame.id == Dec(g.of.value)
  }

  /** A logout is the last thing on its way. */
  predicate LogoutLast(q: seq<Sent>) {
    forall k :: 0 <= k < |q| - 1 ==> !q[k].what.Disconnect?
  }

  predicate VectorsOk(session: ClientUser.Session, asked: seq<(Command, string)>) {
    && |session.receipts| == |session.actions| == |asked|
    && (forall r: nat :: r < |asked| ==> Recorded(session, asked, r))
  }

  ghost predicate QueueOk(session: ClientUser.Session, q: seq<Sent>, accepted: nat) {
    && (forall s :: s in q ==> SentOk(session, s))
    && Consecutive(JoinIds(q), accepted, |session.subscriptions|)
    && LogoutLast(q)
  }

  predicate AnswersOk(session: ClientUser.Session, got: seq<Got>) {
    forall g :: g in got ==> GotOk(session, g)
  }

  predicate EndsInLogout(q: seq<Sent>) {
    q != [] && q[|q| - 1].what.Disconnect?
  }

  ghost predicate Ok(y: Sys) {
    && I.Inv(y.server)
    && VectorsOk(y.session, y.asked)
    && QueueOk(y.session, y.toServer, y.accepted)
    && AnswersOk(y.session, y.toClient)
    && (y.c in y.server.byConn ==> SubsOk(y.session, y.accepted, B.UserAt(y.server, y.c).subs))
    && (y.leaving <==> y.c !in y.server.byConn || EndsInLogout(y.toServer))
    && (y.c !in y.server.byConn ==> y.toServer == [])
  }

  predicate Extends(s: ClientUser.Session, s': ClientUser.Session) {
    s.subscriptions <= s'.subscriptions && s.receipts <= s'.receipts && s.actions <= s'.actions
  }

  lemma {:induction false} FirstStaysFirst(l: seq<string>, longer: seq<string>, x: string)
    requires l <= longer && FirstIndex(l, x) < |l|
    ensures FirstIndex(longer, x) == FirstIndex(l, x)
  {
    if l[0] == x {
    } else {
      FirstStaysFirst(l[1..], longer[1..], x);
    }
  }

  /** A longer session still stands for everything a shorter one did. */
  lemma LongerSession(s: ClientUser.Session, s': ClientUser.Session, asked: seq<(Command, string)>, q: seq<Sent>,
                      got: seq<Got>,
                      accepted: nat, subs: Table)
    requires Extends(s, s')
    ensures forall r, x :: Recorded(s, asked, r) ==> Recorded(s', asked + [x], r)
    ensures (forall m :: m in q ==> SentOk(s, m)) ==> (forall m :: m in q ==> SentOk(s', m))
    ensures AnswersOk(s, got) ==> AnswersOk(s', got)
    ensures SubsOk(s, accepted, subs) ==> SubsOk(s', accepted, subs)
  {
    forall m | m in q && SentOk(s, m) ensures SentOk(s', m) {
      if m.what.Unsubscribe? {
        FirstStaysFirst(s.subscriptions, s'.subscriptions, s.subscriptions[m.what.i]);
      }
    }
    if SubsOk(s, accepted, subs) {
      forall id | id in subs
        ensures exists i: nat ::
                  i < accepted && i < |s'.subscriptions| && id == Dec(i) && subs[id] == "/" + s'.subscriptions[i]
      {
        var i: nat :| i < accepted && i < |s.subscriptions| && id == Dec(i) && subs[id] == "/" + s.subscriptions[i];
        assert s'.subscriptions[i] == s.subscriptions[i];
      }
    }
  }

  lemma {:induction false} JoinIdsOfMore(q: seq<Sent>, x: Sent)
    ensures JoinIds(q + [x]) == JoinIds(q) + (if x.what.Subscribe? then [x.what.i] else [])
  {
    if q == [] {
      assert q + [x] == [x] && JoinIds([x][1..]) == [];
    } else {
      assert (q + [x])[0] == q[0] && (q + [x])[1..] == q[1..] + [x];
      JoinIdsOfMore(q[1..], x);
      InFront(if q[0].what.Subscribe? then [q[0].what.i] else [], JoinIds(q[1..]),
              if x.what.Subscribe? then [x.what.i] else []);
    }
  }

  lemma InFront(x: seq<nat>, y: seq<nat>, z: seq<nat>)
    ensures x + (y + z) == x + y + z
  {
  }

  /** A request more, recorded and sent. */
  lemma AskKeeps(y: Sys, subscriptions: seq<string>, command: Command, game: string, action: int, text: string,
                 what: What)
    requires VectorsOk(y.session, y.asked) && QueueOk(y.session, y.toServer, y.accepted)
             && AnswersOk(y.session, y.toClient)
    requires y.session.subscriptions <= subscriptions && !EndsInLogout(y.toServer)
    requires what.Subscribe? ==> |subscriptions| == |y.session.subscriptions| + 1 && what.i == |y.session.subscriptions|
    requires !what.Subscribe? ==> subscriptions == y.session.subscriptions
    requires if command == ClientUser.Logout then game == ""
             else 0 <= action < |subscriptions| && subscriptions[action] == game
    requires SentOk(ClientUser.Session(subscriptions, y.session.receipts + [command], y.session.actions + [action]),
                    Sent(text, what))
    ensures var y' := Ask(y.(session := y.session.(subscriptions := subscriptions)), command, game, action, text, what);
            && VectorsOk(y'.session, y'.asked) && QueueOk(y'.session, y'.toServer, y'.accepted)
            && AnswersOk(y'.session, y'.toClient) && Extends(y.session, y'.session)
  {
    hide GotOk;
    hide SentOk;
    hide JoinIds;
    hide AnswersOk;
    var y' := Ask(y.(session := y.session.(subscriptions := subscriptions)), command, game, action, text, what);
    LongerSession(y.session, y'.session, y.asked, y.toServer, y.toClient, 0, map[]);
    JoinIdsOfMore(y.toServer, Sent(text, what));
    forall r: nat | r < |y'.asked| ensures Recorded(y'.session, y'.asked, r) {
      if r < |y.asked| {
        assert Recorded(y.session, y.asked, r);
      }
    }
    forall m | m in y'.toServer ensures SentOk(y'.session, m) {
    }
  }

  lemma JoinKeeps(y: Sys, game: string)
    requires Ok(y) && !y.leaving && Nameable(game)
    ensures Ok(Join(y, game))
  {
    hide I.Inv;
    hide B.UserAt;
    hide SubscribeText;
    hide VectorsOk;
    hide AnswersOk;
    var i, r := |y.session.subscriptions|, |y.session.receipts|;
    AskKeeps(y, y.session.subscriptions + [game], ClientUser.Join, game, i, SubscribeText(game, Dec(i), Dec(r)),
             Subscribe(i, r));
    hide QueueOk;
    LongerSession(y.session, Join(y, game).session, [], [], [], y.accepted, B.UserAt(y.server, y.c).subs);
    hide SubsOk;
  }

  lemma ExitKeeps(y: Sys, game: string)
    requires Ok(y) && !y.leaving
    ensures Ok(Exit(y, game))
  {
    assert |y.session.actions| == |y.session.receipts|;
    hide I.Inv;
    hide B.UserAt;
    hide UnsubscribeText;
    hide VectorsOk;
    hide AnswersOk;
    var i, r := FirstIndex(y.session.subscriptions, game), |y.session.receipts|;
    if i < |y.session.subscriptions| {
      AskKeeps(y, y.session.subscriptions, ClientUser.Exit, game, i, UnsubscribeText(Dec(i), Dec(r)),
               Unsubscribe(i, r));
      assert y.(session := y.session.(subscriptions := y.session.subscriptions)) == y;
      LongerSession(y.session, Exit(y, game).session, [], [], [], y.accepted, B.UserAt(y.server, y.c).subs);
    }
    hide QueueOk;
    hide SubsOk;
  }

  lemma LogoutKeeps(y: Sys)
    requires Ok(y) && !y.leaving
    ensures Ok(Logout(y))
  {
    hide I.Inv;
    hide B.UserAt;
    hide DisconnectText;
    hide VectorsOk;
    hide AnswersOk;
    var r := |y.session.receipts|;
    var y1 := y.(leaving := true);
    AskKeeps(y1, y.session.subscriptions, ClientUser.Logout, "", -1, DisconnectText(Dec(r)), Disconnect(r));
    assert y1.(session := y1.session.(subscriptions := y1.session.subscriptions)) == y1;
    LongerSession(y.session, Logout(y).session, [], [], [], y.accepted, B.UserAt(y.server, y.c).subs);
    hide QueueOk;
    hide SubsOk;
  }

  lemma ReportKeeps(y: Sys, text: string)
    requires Ok(y) && !y.leaving && Publishes(text) && '\0' !in text
    ensures Ok(Do(y, DoReport(text)))
  {
    hide I.Inv;
    hide B.UserAt;
    hide Publishes;
    hide VectorsOk;
    hide AnswersOk;
    hide SubsOk;
    JoinIdsOfMore(y.toServer, Sent(text, Publish));
    forall m | m in y.toServer + [Sent(text, Publish)] ensures SentOk(y.session, m) {
    }
  }

  lemma TakeKeeps(y: Sys, k: nat)
    requires Ok(y) && k < |y.toClient|
    ensures Ok(Do(y, Take(k)))
  {
    hide I.Inv;
    hide B.UserAt;
    hide VectorsOk;
    hide QueueOk;
    hide SubsOk;
    hide GotOk;
    var got := y.toClient[..k] + y.toClient[k + 1..];
    forall g | g in got ensures g in y.toClient {
    }
  }

  lemma ElsewhereKeeps(y: Sys, e: I.Event)
    requires Ok(y) && e.conn != y.c && !I.Bad(y.server, e)
    ensures Ok(Do(y, Elsewhere(e)))
  {
    hide B.Process;
    var r := I.Step(y.server, e);
    OthersLeaveUsAlone(y.server, e, y.c, (y.c, Connected));
    forall g | g in ForClient(r.sent, y.c, None) ensures GotOk(y.session, g) {
      OthersLeaveUsAlone(y.server, e, y.c, (y.c, g.frame));
    }
    hide I.Inv;
    hide B.UserAt;
    hide VectorsOk;
    hide QueueOk;
    hide SubsOk;
    hide GotOk;
    hide I.Step;
    hide I.Bad;
  }

  lemma HeadOfQueue(session: ClientUser.Session, q: seq<Sent>, accepted: nat)
    requires QueueOk(session, q, accepted) && q != []
    ensures SentOk(session, q[0])
    ensures QueueOk(session, q[1..], accepted + (if q[0].what.Subscribe? then 1 else 0))
    ensures q[0].what.Subscribe? ==> q[0].what.i == accepted < |session.subscriptions|
    ensures q[0].what.Disconnect? ==> |q| == 1 && EndsInLogout(q)
    ensures !q[0].what.Disconnect? ==> (EndsInLogout(q[1..]) <==> EndsInLogout(q))
  {
    hide SentOk;
    assert q[0] in q;
    var ids, n := JoinIds(q), |session.subscriptions|;
    if q[0].what.Subscribe? {
      assert ids[1..] == JoinIds(q[1..]);
      assert ids[0] == accepted;
      assert ids[1..] == seq(n - (accepted + 1), k requires 0 <= k => accepted + 1 + k);
    } else {
      assert ids == JoinIds(q[1..]);
    }
    forall m | m in q[1..] ensures m in q {
    }
  }

  /** The one answer to request r is on its way like the others. */
  lemma OneAnswer(session: ClientUser.Session, got: seq<Got>, sent: seq<(int, Frame)>, c: int, r: nat)
    requires AnswersOk(session, got) && r < |session.receipts| && |sent| == 1 && sent[0].0 == c
    requires sent[0].1.Receipt? ==> sent[0].1.id == Dec(r)
    ensures AnswersOk(session, got + ForClient(sent, c, Some(r)))
    ensures ForClient(sent, c, Some(r)) == [Got(sent[0].1, Some(r))]
  {
    assert sent[1..] == [];
    assert ForClient(sent, c, Some(r)) == [Got(sent[0].1, Some(r))];
  }

  /** The id of a join that is on its way is not among the user's subscriptions yet. */
  lemma NewId(session: ClientUser.Session, accepted: nat, subs: Table)
    requires SubsOk(session, accepted, subs)
    ensures Dec(accepted) !in subs
  {
    if Dec(accepted) in subs {
      var i: nat :| i < accepted && i < |session.subscriptions| && Dec(accepted) == Dec(i);
      DecInjective(accepted, i);
    }
  }

  /** What serving one frame must leave in order. */
  lemma ServedOk(y: Sys, pick: string)
    requires y.toServer != [] && VectorsOk(y.session, y.asked)
    requires QueueOk(y.session, y.toServer[1..], Served(y, pick).accepted)
    requires AnswersOk(y.session, Served(y, pick).toClient)
    requires var s := B.Process(y.server, y.c, y.toServer[0].text, pick).state;
             && I.Inv(s)
             && (y.c in s.byConn ==> SubsOk(y.session, Served(y, pick).accepted, B.UserAt(s, y.c).subs))
             && (y.leaving <==> y.c !in s.byConn || EndsInLogout(y.toServer[1..]))
             && (y.c !in s.byConn ==> |y.toServer| == 1)
    ensures Ok(Served(y, pick))
  {
    hide I.Inv;
    hide B.UserAt;
    hide B.Process;
    hide VectorsOk;
    hide QueueOk;
    hide SubsOk;
    hide AnswersOk;
    hide GotOk;
    hide Means;
    hide Dec;
    hide ForClient;
    hide EndsInLogout;
  }

  lemma JoinServed(y: Sys, pick: string)
    requires Ok(y) && y.toServer != [] && y.toServer[0].what.Subscribe?
    ensures var r, what := B.Process(y.server, y.c, y.toServer[0].text, pick), y.toServer[0].what;
            && r.sent == [(y.c, Receipt(Dec(what.r)))] && y.c in r.state.byConn && I.Inv(r.state)
            && SubsOk(y.session, y.accepted + 1, B.UserAt(r.state, y.c).subs)
  {
    hide I.Inv;
    hide B.UserAt;
    hide B.Process;
    hide VectorsOk;
    hide QueueOk;
    hide SubsOk;
    hide AnswersOk;
    hide Means;
    hide Dec;
    hide EndsInLogout;
    hide SubscribeText;
    var s, what := y.server, y.toServer[0].what;
    HeadOfQueue(y.session, y.toServer, y.accepted);
    var dest := "/" + y.session.subscriptions[what.i];
    SubscribeMeans(y.session.subscriptions[what.i], Dec(what.i), Dec(what.r));
    NewId(y.session, y.accepted, B.UserAt(s, y.c).subs);
    ServeSubscribe(s, y.c, y.toServer[0].text, dest, Dec(what.i), Dec(what.r), pick);
    OneMoreSub(y.session, y.accepted, B.UserAt(s, y.c).subs);
  }

  lemma ServeJoinKeeps(y: Sys, pick: string)
    requires Ok(y) && y.toServer != [] && y.toServer[0].what.Subscribe?
    ensures Ok(Served(y, pick))
    ensures Served(y, pick).toClient == y.toClient
            + [Got(Receipt(Dec(y.toServer[0].what.r)), Some(y.toServer[0].what.r))]
  {
    hide I.Inv;
    hide B.UserAt;
    hide B.Process;
    hide VectorsOk;
    hide QueueOk;
    hide SubsOk;
    hide AnswersOk;
    hide GotOk;
    hide Dec;
    hide ForClient;
    hide EndsInLogout;
    hide SubscribeText;
    HeadOfQueue(y.session, y.toServer, y.accepted);
    JoinServed(y, pick);
    OneAnswer(y.session, y.toClient, B.Process(y.server, y.c, y.toServer[0].text, pick).sent, y.c,
              y.toServer[0].what.r);
    ServedOk(y, pick);
  }

  lemma OneMoreSub(session: ClientUser.Session, accepted: nat, subs: Table)
    requires SubsOk(session, accepted, subs) && accepted < |session.subscriptions|
    ensures SubsOk(session, accepted + 1, subs[Dec(accepted) := "/" + session.subscriptions[accepted]])
  {
    hide Dec;
    var subs' := subs[Dec(accepted) := "/" + session.subscriptions[accepted]];
    forall id | id in subs'
      ensures exists i: nat :: i < accepted + 1 && i < |session.subscriptions| && id == Dec(i)
                               && subs'[id] == "/" + session.subscriptions[i]
    {
      if id == Dec(accepted) {
        assert accepted < accepted + 1;
      } else {
        var i: nat :| i < accepted && i < |session.subscriptions| && id == Dec(i)
            && subs[id] == "/" + session.subscriptions[i];
        assert i < accepted + 1;
      }
    }
  }

  lemma FewerSubs(session: ClientUser.Session, accepted: nat, subs: Table, id: string)
    requires SubsOk(session, accepted, subs)
    ensures SubsOk(session, accepted, subs - {id})
  {
    hide Dec;
    forall k | k in subs - {id}
      ensures exists i: nat :: i < accepted && i < |session.subscriptions| && k == Dec(i)
                               && (subs - {id})[k] == "/" + session.subscriptions[i]
    {
      assert k in subs;
    }
  }

  lemma ServeExitKeeps(y: Sys, pick: string)
    requires Ok(y) && y.toServer != [] && y.toServer[0].what.Unsubscribe?
    ensures Ok(Served(y, pick))
  {
    var s, what := y.server, y.toServer[0].what;
    hide I.Inv;
    hide B.UserAt;
    hide B.Process;
    hide VectorsOk;
    hide QueueOk;
    hide SubsOk;
    hide AnswersOk;
    hide GotOk;
    hide Means;
    hide Dec;
    hide ForClient;
    hide EndsInLogout;
    hide UnsubscribeText;
    HeadOfQueue(y.session, y.toServer, y.accepted);
    UnsubscribeMeans(Dec(what.i), Dec(what.r));
    ServeUnsubscribe(s, y.c, y.toServer[0].text, Dec(what.i), Dec(what.r), pick);
    FewerSubs(y.session, y.accepted, B.UserAt(s, y.c).subs, Dec(what.i));
    OneAnswer(y.session, y.toClient, B.Process(s, y.c, y.toServer[0].text, pick).sent, y.c, what.r);
    ServedOk(y, pick);
  }

  lemma ServeLogoutKeeps(y: Sys, pick: string)
    requires Ok(y) && y.toServer != [] && y.toServer[0].what.Disconnect?
    ensures Ok(Served(y, pick))
  {
    var s, what := y.server, y.toServer[0].what;
    hide I.Inv;
    hide B.UserAt;
    hide B.Process;
    hide VectorsOk;
    hide QueueOk;
    hide SubsOk;
    hide AnswersOk;
    hide GotOk;
    hide Means;
    hide Dec;
    hide ForClient;
    hide EndsInLogout;
    hide DisconnectText;
    HeadOfQueue(y.session, y.toServer, y.accepted);
    DisconnectMeans(Dec(what.r));
    ServeDisconnect(s, y.c, y.toServer[0].text, Dec(what.r), pick);
    OneAnswer(y.session, y.toClient, B.Process(s, y.c, y.toServer[0].text, pick).sent, y.c, what.r);
    ServedOk(y, pick);
  }

  lemma ServeReportKeeps(y: Sys, pick: string)
    requires Ok(y) && y.toServer != [] && y.toServer[0].what.Publish?
    ensures Ok(Served(y, pick))
  {
    hide Find;
    hide B.Handle;
    var s, text := y.server, y.toServer[0].text;
    HeadOfQueue(y.session, y.toServer, y.accepted);
    ServePublish(s, y.c, text, pick, (y.c, Connected));
    var r := B.Process(s, y.c, text, pick);
    forall g | g in ForClient(r.sent, y.c, None) ensures GotOk(y.session, g) {
      ServePublish(s, y.c, text, pick, (y.c, g.frame));
    }
    hide I.Inv;
    hide B.Process;
    hide VectorsOk;
    hide Publishes;
    hide QueueOk;
    hide SubsOk;
    hide GotOk;
  }

  /** Every step of the session keeps all of this. */
  lemma StepKeepsOk(y: Sys, step: Step)
    requires Ok(y)
    ensures Ok(Do(y, step))
  {
    hide I.Inv;
    hide I.Bad;
    hide Join;
    hide Exit;
    hide Logout;
    hide Served;
    hide VectorsOk;
    hide QueueOk;
    hide SubsOk;
    hide AnswersOk;
    if Can(y, step) {
      match step
      case DoJoin(game) => JoinKeeps(y, game);
      case DoExit(game) => ExitKeeps(y, game);
      case DoLogout => LogoutKeeps(y);
      case DoReport(text) => ReportKeeps(y, text);
      case Elsewhere(e) => ElsewhereKeeps(y, e);
      case Take(k) => TakeKeeps(y, k);
      case Serve(pick) =>
        match y.toServer[0].what
        case Subscribe(_, _) => ServeJoinKeeps(y, pick);
        case Unsubscribe(_, _) => ServeExitKeeps(y, pick);
        case Disconnect(_) => ServeLogoutKeeps(y, pick);
        case Publish => ServeReportKeeps(y, pick);
    }
  }

  function Run(y: Sys, steps: seq<Step>): Sys
    decreases steps
  {
    if steps == [] then y else Run(Do(y, steps[0]), steps[1..])
  }

  /** An accepted login on a fresh connection begins a session: whoever logs in again starts clean. */
  lemma LoginBegins(s: B.State, q: B.Request)
    requires I.Inv(s) && q.cid in s.handlers && q.cid !in s.byConn && I.LoginAccepted(s, q)
    ensures Begins(Sys(q.cid, NewSession, [], [], [], B.Login(s, q).state, 0, false))
  {
    I.LoginKeeps(s, q);
    assert I.UserOk(s, Get(q.table, "login"));
    hide I.Inv;
    hide Get;
  }

  lemma BeginsOk(y: Sys)
    requires Begins(y)
    ensures Ok(y)
  {
  }

  lemma {:induction false} RunKeepsOk(y: Sys, steps: seq<Step>)
    requires Ok(y)
    ensures Ok(Run(y, steps))
    decreases steps
  {
    hide Ok;
    hide Do;
    if steps == [] {
    } else {
      StepKeepsOk(y, steps[0]);
      RunKeepsOk(Do(y, steps[0]), steps[1..]);
    }
  }

  /** What the client makes of a RECEIPT: the command and the game it has on record under that number. */
  function Told(session: ClientUser.Session, msg: string): Option<(Command, string)> {
    match ReceiptNumber(msg)
    case None => None
    case Some(n) =>
      if !(0 <= n < |session.receipts| && n < |session.actions|) then None
      else if session.receipts[n] == ClientUser.Logout then Some((ClientUser.Logout, ""))
      else if 0 <= session.actions[n] < |session.subscriptions|
      then Some((session.receipts[n], session.subscriptions[session.actions[n]]))
      else None
  }

  /** Whenever a RECEIPT arrives, it tells the client the command and the game of the request whose handling sent it. */
  lemma ReceiptNamesItsRequest(y: Sys, steps: seq<Step>, k: nat)
    requires Begins(y) && k < |Run(y, steps).toClient| && Run(y, steps).toClient[k].frame.Receipt?
    ensures var y' := Run(y, steps);
            var g := y'.toClient[k];
            && g.of.Some? && g.of.value < |y'.asked|
            && Told(y'.session, Render(g.frame)) == Some(y'.asked[g.of.value])
  {
    BeginsOk(y);
    RunKeepsOk(y, steps);
    hide Run;
    var y' := Run(y, steps);
    var g := y'.toClient[k];
    assert g in y'.toClient;
    assert GotOk(y'.session, g);
    assert Recorded(y'.session, y'.asked, g.of.value);
    hide I.Inv;
    hide QueueOk;
    hide SubsOk;
    hide Render;
    hide ReceiptNumber;
    ReceiptReadBack(g.of.value);
  }

  function Texts(q: seq<Sent>): (r: seq<string>)
    ensures |r| == |q| && forall i :: 0 <= i < |q| ==> r[i] == q[i].text
  {
    if q == [] then [] else [q[0].text] + Texts(q[1..])
  }

  lemma SentIsWhole(session: ClientUser.Session, s: Sent)
    requires SentOk(session, s)
    ensures '\0' !in s.text
  {
    match s.what
    case Subscribe(i, r) => JoinIsWhole(session.subscriptions[i], i, r);
    case Unsubscribe(i, r) => ExitIsWhole(i, r);
    case Disconnect(r) => LogoutIsWhole(r);
    case Publish =>
  }

  /** In every session what the client has sent reaches process frame by frame, in whatever chunks it comes. */
  lemma RequestsArrive(y: Sys, steps: seq<Step>, past: seq<string>, chunks: seq<seq<C.Byte>>)
    requires Begins(y) && C.Concat(chunks) == C.EncodeAll(Texts(Run(y, steps).toServer))
    ensures C.FeedChunks(C.Decoded([], past), chunks) == C.Decoded([], past + Texts(Run(y, steps).toServer))
  {
    BeginsOk(y);
    RunKeepsOk(y, steps);
    hide Run;
    hide SentOk;
    var y' := Run(y, steps);
    forall m | m in Texts(y'.toServer) ensures '\0' !in m {
      var i :| 0 <= i < |y'.toServer| && Texts(y'.toServer)[i] == m;
      assert y'.toServer[i] in y'.toServer;
      SentIsWhole(y'.session, y'.toServer[i]);
    }
    C.ArriveExactly(past, Texts(y'.toServer), chunks);
  }

  /**
   A join on its way carries an id of its own and its own game, and the server, which has not seen
   the id before, always accepts it: its branch for an id already in use is never taken. The frame is
   the next one process gets, in whatever chunks the client's bytes come.
   */
  lemma JoinIsAccepted(y: Sys, steps: seq<Step>, pick: string, past: seq<string>, chunks: seq<seq<C.Byte>>)
    requires Begins(y)
    requires var q := Run(y, steps).toServer;
             q != [] && q[0].what.Subscribe? && C.Concat(chunks) == C.EncodeAll(Texts(q))
    ensures var y' := Run(y, steps);
            var w := y'.toServer[0].what;
            && w.i < |y'.session.subscriptions|
            && y'.toServer[0].text == SubscribeText(y'.session.subscriptions[w.i], Dec(w.i), Dec(w.r))
            && Dec(w.i) !in B.UserAt(y'.server, y'.c).subs
            && Served(y', pick).toClient == y'.toClient + [Got(Receipt(Dec(w.r)), Some(w.r))]
    ensures past + [Run(y, steps).toServer[0].text] <= C.FeedChunks(C.Decoded([], past), chunks).frames
  {
    BeginsOk(y);
    RunKeepsOk(y, steps);
    RequestsArrive(y, steps, past, chunks);
    hide Run;
    var y' := Run(y, steps);
    HeadOfQueue(y'.session, y'.toServer, y'.accepted);
    NewId(y'.session, y'.accepted, B.UserAt(y'.server, y'.c).subs);
    ServeJoinKeeps(y', pick);
    hide Ok;
    hide Served;
    hide I.Inv;
  }

  /** The id of a join on its way is shared neither with another one on its way nor with a subscription in force. */
  lemma IdsAreDistinct(y: Sys, steps: seq<Step>, k: nat)
    requires Begins(y) && k < |JoinIds(Run(y, steps).toServer)|
    ensures var y' := Run(y, steps);
            var ids := JoinIds(y'.toServer);
            && (forall j :: 0 <= j < |ids| && j != k ==> Dec(ids[j]) != Dec(ids[k]))
            && forall id :: id in B.UserAt(y'.server, y'.c).subs ==> id != Dec(ids[k])
  {
    BeginsOk(y);
    RunKeepsOk(y, steps);
    hide Run;
    hide Dec;
    var y' := Run(y, steps);
    var ids := JoinIds(y'.toServer);
    forall j | 0 <= j < |ids| && j != k ensures Dec(ids[j]) != Dec(ids[k]) {
      assert ids[j] == y'.accepted + j && ids[k] == y'.accepted + k;
      if Dec(ids[j]) == Dec(ids[k]) {
        DecInjective(ids[j], ids[k]);
      }
    }
    var subs := B.UserAt(y'.server, y'.c).subs;
    if Dec(ids[k]) in subs {
      var i: nat :| i < y'.accepted && i < |y'.session.subscriptions| && Dec(ids[k]) == Dec(i);
      DecInjective(ids[k], i);
    }
  }

  /**
   An exit leaves the game at the server exactly if the game's first subscription is still in force:
   the id the client sends is always that of its first join, however often it has joined since.
   */
  lemma ExitMeansFirstJoin(y: Sys, pick: string)
    requires Ok(y) && y.toServer != [] && y.toServer[0].what.Unsubscribe?
    ensures var w := y.toServer[0].what;
            var subs, got := B.UserAt(y.server, y.c).subs, Served(y, pick).toClient;
            && w.r < |y.asked| && y.asked[w.r].0 == ClientUser.Exit
            && w.i == FirstIndex(y.session.subscriptions, y.asked[w.r].1)
            && |got| == |y.toClient| + 1 && got[..|y.toClient|] == y.toClient
            && (if Dec(w.i) in subs then got[|y.toClient|].frame.Receipt? else got[|y.toClient|].frame.Error?)
            && B.UserAt(Served(y, pick).server, y.c).subs == subs - {Dec(w.i)}
  {
    hide I.Inv;
    hide B.UserAt;
    hide B.Process;
    hide QueueOk;
    hide SubsOk;
    hide AnswersOk;
    hide ForClient;
    hide Means;
    hide Dec;
    hide UnsubscribeText;
    hide FirstIndex;
    var s, what := y.server, y.toServer[0].what;
    HeadOfQueue(y.session, y.toServer, y.accepted);
    assert Recorded(y.session, y.asked, what.r);
    UnsubscribeMeans(Dec(what.i), Dec(what.r));
    ServeUnsubscribe(s, y.c, y.toServer[0].text, Dec(what.i), Dec(what.r), pick);
    OneAnswer(y.session, y.toClient, B.Process(s, y.c, y.toServer[0].text, pick).sent, y.c, what.r);
  }

  /** What a join leaves: one more answer, a receipt, and one more subscription, to its game. */
  lemma JoinDone(y: Sys, game: string, pick: string)
    requires Ok(y) && !y.leaving && y.toServer == [] && Nameable(game)
    ensures var n, y' := |y.session.subscriptions|, Do(Do(y, DoJoin(game)), Serve(pick));
            && Ok(y') && !y'.leaving && y'.toServer == [] && y'.c == y.c
            && y'.session.subscriptions == y.session.subscriptions + [game]
            && |y'.toClient| == |y.toClient| + 1 && y'.toClient[..|y.toClient|] == y.toClient
            && y'.toClient[|y.toClient|].frame.Receipt?
            && B.UserAt(y'.server, y.c).subs == B.UserAt(y.server, y.c).subs[Dec(n) := "/" + game]
  {
    hide I.Inv;
    hide B.UserAt;
    hide B.Process;
    hide VectorsOk;
    hide QueueOk;
    hide SubsOk;
    hide AnswersOk;
    hide Dec;
    hide ForClient;
    hide SubscribeText;
    JoinKeeps(y, game);
    ServeJoinKeeps(Join(y, game), pick);
    JoinSubscribes(Join(y, game), pick);
    HeadOfQueue(Join(y, game).session, Join(y, game).toServer, Join(y, game).accepted);
  }

  lemma JoinSubscribes(y: Sys, pick: string)
    requires Ok(y) && y.toServer != [] && y.toServer[0].what.Subscribe?
    ensures var i := y.toServer[0].what.i;
            && i < |y.session.subscriptions|
            && B.UserAt(Served(y, pick).server, y.c).subs
               == B.UserAt(y.server, y.c).subs[Dec(i) := "/" + y.session.subscriptions[i]]
  {
    hide I.Inv;
    hide B.UserAt;
    hide B.Process;
    hide VectorsOk;
    hide QueueOk;
    hide SubsOk;
    hide AnswersOk;
    hide Means;
    hide Dec;
    hide ForClient;
    hide SubscribeText;
    var s, what := y.server, y.toServer[0].what;
    HeadOfQueue(y.session, y.toServer, y.accepted);
    SubscribeMeans(y.session.subscriptions[what.i], Dec(what.i), Dec(what.r));
    NewId(y.session, y.accepted, B.UserAt(s, y.c).subs);
    ServeSubscribe(s, y.c, y.toServer[0].text, "/" + y.session.subscriptions[what.i], Dec(what.i), Dec(what.r), pick);
  }

  /** What an exit leaves: one more answer, a receipt exactly if its game's first id was in force, and that id gone. */
  lemma ExitDone(y: Sys, game: string, pick: string)
    requires Ok(y) && !y.leaving && y.toServer == [] && '\n' !in game && game in y.session.subscriptions
    ensures var i, y' := FirstIndex(y.session.subscriptions, game), Do(Do(y, DoExit(game)), Serve(pick));
            && Ok(y') && !y'.leaving && y'.toServer == [] && y'.c == y.c
            && y'.session.subscriptions == y.session.subscriptions
            && |y'.toClient| == |y.toClient| + 1 && y'.toClient[..|y.toClient|] == y.toClient
            && (var f := y'.toClient[|y.toClient|].frame;
                if Dec(i) in B.UserAt(y.server, y.c).subs then f.Receipt? else f.Error?)
            && B.UserAt(y'.server, y.c).subs == B.UserAt(y.server, y.c).subs - {Dec(i)}
  {
    hide I.Inv;
    hide B.UserAt;
    hide B.Process;
    hide VectorsOk;
    hide QueueOk;
    hide SubsOk;
    hide AnswersOk;
    hide Dec;
    hide ForClient;
    hide UnsubscribeText;
    hide FirstIndex;
    ExitKeeps(y, game);
    ServeExitKeeps(Exit(y, game), pick);
    ExitMeansFirstJoin(Exit(y, game), pick);
  }

  lemma RunTwo(y: Sys, a: Step, b: Step, more: seq<Step>)
    ensures Run(y, [a, b] + more) == Run(Do(Do(y, a), b), more)
  {
    hide Do;
    var steps := [a, b] + more;
    assert steps[0] == a && steps[1..][0] == b && steps[1..][1..] == more;
  }

  /** Join, exit, join and exit again, each served before the next. */
  function JoinAndExitTwice(game: string, pick: string): seq<Step> {
    var joined, left := [DoJoin(game), Serve(pick)], [DoExit(game), Serve(pick)];
    joined + (left + (joined + left))
  }

  /** The second exit names the first subscription again: it is refused, and the second subscription stays. */
  lemma SecondExitIsRefused(y: Sys, game: string, pick: string)
    requires Begins(y) && Nameable(game)
    ensures var y' := Run(y, JoinAndExitTwice(game, pick));
            && |y'.toClient| == 4 && y'.toClient[0].frame.Receipt? && y'.toClient[1].frame.Receipt?
            && y'.toClient[2].frame.Receipt? && y'.toClient[3].frame.Error?
            && B.UserAt(y'.server, y'.c).subs == map[Dec(1) := "/" + game]
  {
    hide QueueOk;
    hide IsDigit;
    hide B.IdsOf;
    hide Do;
    hide Ok;
    hide Dec;
    hide B.UserAt;
    hide I.Inv;
    BeginsOk(y);
    var left := [DoExit(game), Serve(pick)];
    var again := [DoJoin(game), Serve(pick)] + left;
    RunTwo(y, DoJoin(game), Serve(pick), left + again);
    JoinDone(y, game, pick);
    var y1 := Do(Do(y, DoJoin(game)), Serve(pick));
    RunTwo(y1, DoExit(game), Serve(pick), again);
    ExitDone(y1, game, pick);
    var y2 := Do(Do(y1, DoExit(game)), Serve(pick));
    RunTwo(y2, DoJoin(game), Serve(pick), left);
    JoinDone(y2, game, pick);
    var y3 := Do(Do(y2, DoJoin(game)), Serve(pick));
    assert left == left + [];
    RunTwo(y3, DoExit(game), Serve(pick), []);
    ExitDone(y3, game, pick);
    var y4 := Do(Do(y3, DoExit(game)), Serve(pick));
    TwoIds();
    assert y1.toClient == y2.toClient[..1] && y2.toClient == y3.toClient[..2] && y3.toClient == y4.toClient[..3];
    assert Run(y4, []) == y4;
  }

  lemma TwoIds()
    ensures Dec(0) != Dec(1)
  {
    hide Dec;
    if Dec(0) == Dec(1) {
      DecInjective(0, 1);
    }
  }
}
