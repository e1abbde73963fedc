/** What goes out goes out whole: no text the server sends contains the U+0000 that would end its frame early. */
module Wire {
  import opened Wrappers
  import opened Text
  import opened Frames
  import opened Codec
  import B = Broker
  import I = BrokerInvariant
  import D = BrokerDelivery

  predicate Whole(s: string) {
    '\0' !in s
  }

  predicate WholeTable(t: Table) {
    forall k :: k in t ==> Whole(k) && Whole(t[k])
  }

  lemma {:induction false} HeadersAreWhole(cut: string, t: Table)
    requires Whole(cut) && WholeTable(t) && ReadHeaders(cut, t).Some?
    ensures var (t', rest) := ReadHeaders(cut, t).value; WholeTable(t') && Whole(rest)
    decreases |cut|
  {
    hide FindFrom;
    if cut[0] == '\n' {
    } else {
      var colon, line := Find(cut, ":").value, Find(cut, "\n").value;
      HeadersAreWhole(cut[line + 1..], t[cut[..colon] := cut[colon + 1..line]]);
    }
  }

  /** A text without U+0000 is read into a table without it. */
  lemma ParsedIsWhole(message: string)
    requires Whole(message) && Parse(message).Some?
    ensures WholeTable(Parse(message).value.table)
  {
    hide FindFrom;
    var line := Find(message, "\n").value;
    HeadersAreWhole(message[line + 1..], map[]);
  }

  lemma DecIsWhole(n: nat)
    ensures Whole(Dec(n))
  {
    assert !IsDigit('\0');
  }

  /** What a frame says is whole. */
  predicate WholeFrame(f: Frame) {
    match f
    case Connected => true
    case Receipt(id) => Whole(id)
    case Error(kind, original, description, receipt) =>
      Whole(kind) && Whole(original) && Whole(description) && (receipt.Some? ==> Whole(receipt.value))
    case Message(subscription, id, destination, body) =>
      Whole(subscription) && Whole(id) && Whole(destination) && Whole(body)
  }

  lemma ErrorIsWhole(kind: string, original: string, description: string, receipt: Option<string>)
    ensures Whole(Render(Error(kind, original, description, receipt)))
            <==> WholeFrame(Error(kind, original, description, receipt))
  {
  }

  lemma MessageIsWhole(subscription: string, id: string, destination: string, body: string)
    ensures Whole(Render(Message(subscription, id, destination, body)))
            <==> WholeFrame(Message(subscription, id, destination, body))
  {
  }

  lemma ShortIsWhole(f: Frame)
    requires f.Connected? || f.Receipt?
    ensures Whole(Render(f)) <==> WholeFrame(f)
  {
  }

  /** A frame is printed without U+0000 exactly if what it says has none. */
  lemma RenderedIsWhole(f: Frame)
    ensures Whole(Render(f)) <==> WholeFrame(f)
  {
    hide Whole;
    hide Render;
    match f
    case Error(kind, original, description, receipt) => ErrorIsWhole(kind, original, description, receipt);
    case Message(subscription, id, destination, body) => MessageIsWhole(subscription, id, destination, body);
    case _ => ShortIsWhole(f);
  }

  predicate WholeText(text: Option<string>) {
    text.Some? ==> Whole(text.value)
  }

  lemma Joined(x: string, y: string)
    requires Whole(x) && Whole(y)
    ensures Whole(x + y)
  {
  }

  /** A complaint about the number of headers, as it ends for every kind of frame. */
  lemma CountIsWhole(before: string, n: nat)
    requires Whole(before)
    ensures Whole(before + " instead got " + Dec(n) + ".")
  {
    DecIsWhole(n);
  }

  // The complaints word by word, few at a time.

  lemma UncountedWords()
    ensures Whole("(not including optional receipt)") && Whole("(not including optinal receipt)")
  {
  }

  lemma ConnectCountWords()
    ensures Whole("CONNECT frame must not have a body.") && Whole("CONNECT frame must have 4 headers")
  {
  }

  lemma ConnectNameWords()
    ensures Whole("CONNECT frame must have the headers:") && Whole("accept-version,host,login,passcode")
  {
  }

  lemma SendCountWords()
    ensures Whole("SEND frame must have a body.") && Whole("SEND frame must have 1 header")
  {
  }

  lemma SendNameWords()
    ensures Whole("SEND frame must have a destination header.")
  {
  }

  lemma SubscribeCountWords()
    ensures Whole("SUBSCRIBE frame must not have a body.") && Whole("SUBSCRIBE frame must have 2 headers")
  {
  }

  lemma SubscribeNameWords()
    ensures Whole("SUBSCRIBE frame must have") && Whole(" the next headers: destination,id.")
  {
  }

  lemma UnsubscribeCountWords()
    ensures Whole("UNSUBSCRIBE frame must not have a body.") && Whole("UNSUBSCRIBE frame must have 1 header")
  {
  }

  lemma UnsubscribeNameWords()
    ensures Whole("UNSUBSCRIBE frame must have id header")
  {
  }

  lemma DisconnectCountWords()
    ensures Whole("DISCONNECT frame must not have a body.") && Whole("DISCONNECT frame must have 1 header,")
  {
  }

  lemma DisconnectNameWords()
    ensures Whole("DISCONNECT frame must include receipt header")
  {
  }

  lemma ConnectObjectionIsWhole(t: Table, receipt: bool)
    ensures WholeText(B.Objection("CONNECT", t, receipt))
  {
    hide Dec;
    hide Whole;
    UncountedWords();
    ConnectCountWords();
    ConnectNameWords();
    Joined("CONNECT frame must have 4 headers", "(not including optional receipt)");
    Joined("CONNECT frame must have the headers:", "accept-version,host,login,passcode");
    CountIsWhole("CONNECT frame must have 4 headers" + "(not including optional receipt)", B.Others(t, 1));
  }

  lemma SendObjectionIsWhole(t: Table, receipt: bool)
    ensures WholeText(B.Objection("SEND", t, receipt))
  {
    hide Dec;
    hide Whole;
    UncountedWords();
    SendCountWords();
    SendNameWords();
    Joined("SEND frame must have 1 header", "(not including optional receipt)");
    CountIsWhole("SEND frame must have 1 header" + "(not including optional receipt)", B.Others(t, 2));
  }

  lemma SubscribeObjectionIsWhole(t: Table, receipt: bool)
    ensures WholeText(B.Objection("SUBSCRIBE", t, receipt))
  {
    hide Dec;
    hide Whole;
    UncountedWords();
    SubscribeCountWords();
    SubscribeNameWords();
    Joined("SUBSCRIBE frame must have 2 headers", "(not including optinal receipt)");
    Joined("SUBSCRIBE frame must have", " the next headers: destination,id.");
    CountIsWhole("SUBSCRIBE frame must have 2 headers" + "(not including optinal receipt)", B.Others(t, 1));
  }

  lemma UnsubscribeObjectionIsWhole(t: Table, receipt: bool)
    ensures WholeText(B.Objection("UNSUBSCRIBE", t, receipt))
  {
    hide Dec;
    hide Whole;
    UncountedWords();
    UnsubscribeCountWords();
    UnsubscribeNameWords();
    Joined("UNSUBSCRIBE frame must have 1 header", "(not including optional receipt)");
    CountIsWhole("UNSUBSCRIBE frame must have 1 header" + "(not including optional receipt)", B.Others(t, 1));
  }

  lemma DisconnectObjectionIsWhole(t: Table, receipt: bool)
    ensures WholeText(B.Objection("DISCONNECT", t, receipt))
  {
    hide Dec;
    hide Whole;
    UncountedWords();
    DisconnectCountWords();
    DisconnectNameWords();
    CountIsWhole("DISCONNECT frame must have 1 header,", B.Others(t, 1));
  }

  lemma ObjectionIsWhole(kind: string, t: Table, receipt: bool)
    ensures WholeText(B.Objection(kind, t, receipt))
  {
    hide B.Objection;
    if kind == "CONNECT" {
      ConnectObjectionIsWhole(t, receipt);
    } else if kind == "SEND" {
      SendObjectionIsWhole(t, receipt);
    } else if kind == "SUBSCRIBE" {
      SubscribeObjectionIsWhole(t, receipt);
    } else if kind == "UNSUBSCRIBE" {
      UnsubscribeObjectionIsWhole(t, receipt);
    } else if kind == "DISCONNECT" {
      DisconnectObjectionIsWhole(t, receipt);
    } else {
      OtherObjectionIsWhole(kind, t, receipt);
    }
  }

  lemma OtherObjectionIsWhole(kind: string, t: Table, receipt: bool)
    requires kind !in {"CONNECT", "SEND", "SUBSCRIBE", "UNSUBSCRIBE", "DISCONNECT"}
    ensures WholeText(B.Objection(kind, t, receipt))
  {
  }

  /** No subscription id of any user has U+0000 in it. */
  predicate WholeIds(s: B.State) {
    forall u, id :: u in s.users && id in s.users[u].subs ==> Whole(id)
  }

  predicate WholeRequest(q: B.Request) {
    WholeTable(q.table) && Whole(q.original)
  }

  ghost predicate WholeOutcome(o: B.Outcome) {
    && WholeIds(o.state) && (o.reply.Some? ==> WholeFrame(o.reply.value))
    && forall d :: d in o.deliveries ==> WholeFrame(d.1)
  }

  lemma GetIsWhole(t: Table, k: string)
    requires WholeTable(t)
    ensures Whole(Get(t, k))
  {
  }

  lemma RefusalIsWhole(s: B.State, q: B.Request, kind: string, description: string)
    requires WholeIds(s) && WholeRequest(q) && Whole(kind) && Whole(description)
    ensures WholeOutcome(B.Refuse(s, q, kind, description))
  {
    GetIsWhole(q.table, "receipt");
    hide Whole;
    hide WholeIds;
  }

  lemma GrantIsWhole(s: B.State, q: B.Request, deliveries: seq<(int, Frame)>)
    requires WholeIds(s) && WholeRequest(q) && forall d :: d in deliveries ==> WholeFrame(d.1)
    ensures WholeOutcome(B.Accept(s, q, deliveries))
  {
    GetIsWhole(q.table, "receipt");
    hide Whole;
    hide WholeIds;
  }

  lemma HeaderWords()
    ensures Whole("Login Error") && Whole("The host is illegal.") && Whole("The accept-version is wrong!")
  {
  }

  lemma LoginWords()
    ensures Whole("The user is already Logged in") && Whole("The user password is incorrect")
  {
  }

  lemma AttachIsWhole(s: B.State, c: int, name: string, u: B.User)
    requires WholeIds(s) && forall id :: id in u.subs ==> Whole(id)
    ensures WholeIds(B.Attach(s, c, name, u))
  {
    hide Whole;
  }

  lemma LoginIsWhole(s: B.State, q: B.Request)
    requires WholeIds(s) && WholeRequest(q)
    ensures WholeOutcome(B.Login(s, q))
  {
    hide Whole;
    hide WholeRequest;
    hide Get;
    hide B.Refuse;
    hide B.Attach;
    HeaderWords();
    LoginWords();
    RefusalIsWhole(s, q, "Login Error", "The host is illegal.");
    RefusalIsWhole(s, q, "Login Error", "The accept-version is wrong!");
    RefusalIsWhole(s, q, "Login Error", "The user is already Logged in");
    RefusalIsWhole(s, q, "Login Error", "The user password is incorrect");
    var name := Get(q.table, "login");
    AttachIsWhole(s, q.cid, name, B.User(Get(q.table, "passcode"), true, 0, map[]));
    if name in s.users {
      AttachIsWhole(s, q.cid, name, s.users[name].(connected := true));
    }
    hide WholeIds;
    hide WholeFrame;
  }

  lemma SendWords()
    ensures Whole("SEND command error") && Whole("destination not found.")
  {
  }

  lemma SendIsWhole(s: B.State, q: B.Request, pick: string)
    requires WholeIds(s) && WholeRequest(q) && Whole(pick)
    ensures WholeOutcome(B.Send(s, q, pick))
  {
    hide Whole;
    SendWords();
    DecIsWhole(s.messageId);
    GetIsWhole(q.table, "destination");
    GetIsWhole(q.table, "game_updates");
    hide WholeTable;
    RefusalIsWhole(s, q, "SEND command error", "destination not found.");
    var t := Get(q.table, "destination");
    if t in B.UserAt(s, q.cid).subs.Values && t in s.topics {
      var f := Message(pick, Dec(s.messageId), t, Get(q.table, "game_updates"));
      var (deliveries, threw) := B.Broadcast(s, s.topics[t], f);
      forall d | d in deliveries ensures WholeFrame(d.1) {
        D.BroadcastNumbers(s, s.topics[t], f, d);
      }
      hide B.Broadcast;
      GrantIsWhole(s.(messageId := s.messageId + 1), q, deliveries);
    }
  }

  lemma SubscribeWords()
    ensures Whole("Subscription Error") && Whole("User is already subscribed") && Whole(" to this subscription id.")
  {
  }

  lemma SubscribeIsWhole(s: B.State, q: B.Request)
    requires WholeIds(s) && WholeRequest(q) && q.cid in s.byConn
    ensures WholeOutcome(B.Subscribe(s, q))
  {
    hide Whole;
    SubscribeWords();
    Joined("User is already subscribed", " to this subscription id.");
    GetIsWhole(q.table, "id");
    RefusalIsWhole(s, q, "Subscription Error", "User is already subscribed" + " to this subscription id.");
    var name, id, t := s.byConn[q.cid], Get(q.table, "id"), Get(q.table, "destination");
    var s' := B.SetSubs(s, name, B.UserOf(s, name).subs[id := t]).(topics := Push(s.topics, t, name));
    assert WholeIds(s');
    GrantIsWhole(s', q, []);
  }

  lemma UnsubscribeWords()
    ensures Whole("Unsubscribe Error") && Whole("the user is trying to unsubscribe") && Whole(" from non-existing id.")
  {
  }

  lemma UnsubscribeIsWhole(s: B.State, q: B.Request)
    requires WholeIds(s) && WholeRequest(q) && q.cid in s.byConn
    ensures WholeOutcome(B.Unsubscribe(s, q))
  {
    hide Whole;
    hide B.RemoveFirst;
    UnsubscribeWords();
    Joined("the user is trying to unsubscribe", " from non-existing id.");
    RefusalIsWhole(s, q, "Unsubscribe Error", "the user is trying to unsubscribe" + " from non-existing id.");
    var name, id := s.byConn[q.cid], Get(q.table, "id");
    var subs := B.UserOf(s, name).subs;
    var s' := B.SetSubs(s, name, subs - {id});
    assert WholeIds(s');
    if id in subs && subs[id] in s.topics {
      GrantIsWhole(s'.(topics := s.topics[subs[id] := B.RemoveFirst(s.topics[subs[id]], name)]), q, []);
    }
  }

  lemma SignOffIsWhole(s: B.State, q: B.Request)
    requires WholeIds(s) && WholeRequest(q) && q.cid in s.byConn
    ensures WholeOutcome(B.SignOff(s, q))
  {
    hide Whole;
    hide B.Leave;
    var name := s.byConn[q.cid];
    var s' := s.(topics := B.Leave(s.topics, B.UserOf(s, name).subs, name));
    assert WholeIds(s');
    GrantIsWhole(s', q, []);
  }

  lemma KindWords()
    ensures Whole("Not logged in error") && Whole("Stomp Syntax Error")
  {
  }

  lemma StrangerWords()
    ensures Whole("client cannot make any action") && Whole(" before logging in user.")
  {
  }

  lemma HandleIsWhole(s: B.State, q: B.Request, pick: string)
    requires WholeIds(s) && WholeRequest(q) && Whole(pick)
    ensures WholeOutcome(B.Handle(s, q, pick))
  {
    hide Whole;
    hide WholeIds;
    hide WholeRequest;
    hide WholeOutcome;
    hide B.Login;
    hide B.Send;
    hide B.Subscribe;
    hide B.Unsubscribe;
    hide B.SignOff;
    hide B.Objection;
    hide B.Refuse;
    if q.cid !in s.byConn && q.kind != "CONNECT" {
      KindWords();
      StrangerWords();
      Joined("client cannot make any action", " before logging in user.");
      RefusalIsWhole(s, q, "Not logged in error", "client cannot make any action" + " before logging in user.");
    } else if B.Objection(q.kind, q.table, q.receipt).Some? {
      KindWords();
      ObjectionIsWhole(q.kind, q.table, q.receipt);
      RefusalIsWhole(s, q, "Stomp Syntax Error", B.Objection(q.kind, q.table, q.receipt).value);
    } else if q.kind == "CONNECT" {
      LoginIsWhole(s, q);
    } else if q.kind == "SEND" {
      SendIsWhole(s, q, pick);
    } else if q.kind == "SUBSCRIBE" {
      SubscribeIsWhole(s, q);
    } else if q.kind == "UNSUBSCRIBE" {
      UnsubscribeIsWhole(s, q);
    } else {
      SignOffIsWhole(s, q);
    }
  }

  lemma DisconnectIsWhole(s: B.State, c: int)
    requires WholeIds(s) && c in s.byConn
    ensures WholeIds(B.Disconnect(s, c))
  {
  }

  /** Handed a text without U+0000 the server sends no other, and its tables stay free of it. */
  lemma ProcessIsWhole(s: B.State, c: int, message: string, pick: string)
    requires WholeIds(s) && Whole(message) && Whole(pick)
    ensures WholeIds(B.Process(s, c, message, pick).state)
    ensures forall d :: d in B.Process(s, c, message, pick).sent ==> Whole(Render(d.1))
  {
    hide B.Handle;
    hide B.Disconnect;
    hide Render;
    hide Parse;
    hide WholeIds;
    hide WholeFrame;
    if Parse(message).Some? {
      ParsedIsWhole(message);
      var q := B.RequestOf(c, message).value;
      HandleIsWhole(s, q, pick);
      var o := B.Handle(s, q, pick);
      if c in o.state.byConn {
        DisconnectIsWhole(o.state, c);
      }
      forall d | d in B.Process(s, c, message, pick).sent ensures Whole(Render(d.1)) {
        RenderedIsWhole(d.1);
      }
    }
  }

  /**
   What process can be handed: a text some decoder has released (FramesAreNulFree), and the id a user's
   table yields, if one is asked for.
   */
  predicate Heard(s: B.State, e: I.Event) {
    e.Received? ==> Whole(e.message) && (e.pick == "" || e.pick in B.UserAt(s, e.conn).subs)
  }

  predicate AllHeard(s: B.State, run: seq<I.Event>)
    decreases run
  {
    run == [] || (Heard(s, run[0]) && AllHeard(I.Step(s, run[0]).state, run[1..]))
  }

  lemma StepIsWhole(s: B.State, e: I.Event)
    requires WholeIds(s) && Heard(s, e)
    ensures WholeIds(I.Step(s, e).state)
    ensures forall d :: d in I.Step(s, e).sent ==> Whole(Render(d.1))
  {
    hide B.Process;
    hide Render;
    if e.Received? {
      ProcessIsWhole(s, e.conn, e.message, e.pick);
    }
  }

  lemma {:induction false} OutputsAreWhole(s: B.State, run: seq<I.Event>, i: nat, d: (int, Frame))
    requires WholeIds(s) && AllHeard(s, run) && i < |D.Outputs(s, run)| && d in D.Outputs(s, run)[i]
    ensures Whole(Render(d.1))
    decreases run
  {
    hide I.Step;
    hide Heard;
    hide WholeIds;
    hide Render;
    hide Whole;
    StepIsWhole(s, run[0]);
    if i > 0 {
      OutputsAreWhole(I.Step(s, run[0]).state, run[1..], i - 1, d);
    }
  }

  /** The frames sent to connection c in a run, printed. */
  ghost predicate SentTo(s: B.State, run: seq<I.Event>, c: int, text: string) {
    exists i: nat, f :: i < |D.Outputs(s, run)| && (c, f) in D.Outputs(s, run)[i] && text == Render(f)
  }

  /**
   In every run of a new server, whatever its decoders hand to it, the texts sent to a connection arrive
   as exactly these frames, in whatever order and chunks they leave.
   */
  lemma AnswersArrive(run: seq<I.Event>, c: int, texts: seq<string>, past: seq<string>, chunks: seq<seq<Byte>>)
    requires AllHeard(B.Start, run) && forall text :: text in texts ==> SentTo(B.Start, run, c, text)
    requires Concat(chunks) == EncodeAll(texts)
    ensures FeedChunks(Decoded([], past), chunks) == Decoded([], past + texts)
  {
    hide AllHeard;
    hide D.Outputs;
    hide Render;
    forall text | text in texts ensures Whole(text) {
      var i: nat, f :| i < |D.Outputs(B.Start, run)| && (c, f) in D.Outputs(B.Start, run)[i] && text == Render(f);
      OutputsAreWhole(B.Start, run, i, (c, f));
    }
    ArriveExactly(past, texts, chunks);
  }
}
