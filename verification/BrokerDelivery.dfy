/** What the broker sends: exact delivery, replies, message numbers and the frames it accepts. */
module BrokerDelivery {
  import opened Wrappers
  import opened Text
  import opened Frames
  import opened Broker
  import opened BrokerInvariant

  /** One frame for each name, in list order. */
  function Copies(s: State, names: seq<string>, f: Frame): seq<(int, Frame)> {
    if names == [] then [] else [(UserOf(s, names[0]).cid, f)] + Copies(s, names[1..], f)
  }

  /** In a state where the indexes agree a broadcast meets no missing connection. */
  lemma {:induction false} BroadcastIsTotal(s: State, names: seq<string>, f: Frame)
    requires forall u :: u in names ==> UserOf(s, u).cid in s.handlers
    ensures Broadcast(s, names, f) == (Copies(s, names, f), false)
  {
    if names == [] {
    } else {
      assert forall u :: u in names[1..] ==> u in names;
      BroadcastIsTotal(s, names[1..], f);
    }
  }

  lemma CountHead<T>(l: seq<T>, x: T)
    requires l != []
    ensures multiset(l)[x] == multiset(l[1..])[x] + if l[0] == x then 1 else 0
  {
    assert l == [l[0]] + l[1..];
  }

  lemma {:induction false} CopiesAreOf(s: State, names: seq<string>, f: Frame)
    ensures forall d :: d in Copies(s, names, f) ==> d.1 == f
    decreases names
  {
    hide UserOf;
    if names == [] {
    } else {
      CopiesAreOf(s, names[1..], f);
    }
  }

  /** Connections of distinct listed users differ, so copies can be counted by connection. */
  lemma {:induction false} CopiesCount(s: State, names: seq<string>, f: Frame, c: int)
    requires forall u :: u in names ==> UserOf(s, u).cid in s.byConn && s.byConn[UserOf(s, u).cid] == u
    requires c in s.byConn ==> UserOf(s, s.byConn[c]).cid == c
    ensures multiset(Copies(s, names, f))[(c, f)] == if c in s.byConn then multiset(names)[s.byConn[c]] else 0
    decreases names
  {
    hide UserOf;
    if names == [] {
    } else {
      var copies := Copies(s, names, f);
      assert copies[0] == (UserOf(s, names[0]).cid, f) && copies[1..] == Copies(s, names[1..], f);
      assert names[0] in names && forall v :: v in names[1..] ==> v in names;
      CopiesCount(s, names[1..], f, c);
      hide Copies;
      CountHead(copies, (c, f));
      if c in s.byConn {
        CountHead(names, s.byConn[c]);
      }
    }
  }

  lemma ListedIsLive(s: State, t: string, u: string)
    requires Inv(s) && u in At(s.topics, t)
    ensures UserOf(s, u).cid in s.handlers && UserOf(s, u).cid in s.byConn && s.byConn[UserOf(s, u).cid] == u
  {
    assert TopicOk(s, t, u);
    var id :| id in IdsOf(UserOf(s, u).subs, t);
    assert UserOk(s, u);
  }

  /**
   An accepted SEND reaches every connection exactly as often as its user has subscription ids on
   the destination, with the body unchanged, and its sender never learns of an exception.
   */
  lemma ExactDelivery(s: State, q: Request, pick: string, c: int)
    requires Inv(s) && Get(q.table, "destination") in UserAt(s, q.cid).subs.Values
    ensures var o, t := Send(s, q, pick), Get(q.table, "destination");
            var f := Message(pick, Dec(s.messageId), t, Get(q.table, "game_updates"));
            && !o.threw && o.state.messageId == s.messageId + 1
            && multiset(o.deliveries)[(c, f)] == |IdsOf(UserAt(s, c).subs, t)|
            && forall d :: d in o.deliveries ==> d.1 == f
  {
    var t, name := Get(q.table, "destination"), s.byConn[q.cid];
    var id :| id in UserAt(s, q.cid).subs && UserAt(s, q.cid).subs[id] == t;
    IdsExist(UserAt(s, q.cid).subs, id);
    assert TopicOk(s, t, name);
    var names, f := s.topics[t], Message(pick, Dec(s.messageId), t, Get(q.table, "game_updates"));
    forall u | u in names
      ensures UserOf(s, u).cid in s.handlers && UserOf(s, u).cid in s.byConn && s.byConn[UserOf(s, u).cid] == u
    {
      ListedIsLive(s, t, u);
    }
    BroadcastIsTotal(s, names, f);
    assert ConnOk(s, c);
    CopiesCount(s, names, f, c);
    CopiesAreOf(s, names, f);
    if c in s.byConn {
      assert TopicOk(s, t, s.byConn[c]);
    } else {
      assert IdsOf(map[], t) == {};
    }
  }

  /** An answer that is not an ERROR: CONNECTED to a CONNECT, else a RECEIPT exactly if one was asked for. */
  ghost predicate Granted(q: Request, o: Outcome) {
    && !o.threw
    && o.reply == if q.kind == "CONNECT" then Some(Connected)
                  else if q.receipt then Some(Receipt(Get(q.table, "receipt"))) else None
  }

  /** A refusal: one ERROR that echoes the receipt header if there is one, and nothing else happens. */
  ghost predicate Refused(s: State, q: Request, o: Outcome) {
    && !o.threw && o.state == s && o.deliveries == []
    && o.reply.Some? && o.reply.value.Error? && o.reply.value.original == q.original
    && o.reply.value.receipt == if q.receipt then Some(Get(q.table, "receipt")) else None
  }

  lemma LoginReplies(s: State, q: Request)
    requires q.kind == "CONNECT"
    ensures if LoginAccepted(s, q) then Granted(q, Login(s, q)) else Refused(s, q, Login(s, q))
  {
  }

  lemma SendReplies(s: State, q: Request, pick: string)
    requires Inv(s) && q.kind == "SEND"
    ensures if Get(q.table, "destination") in UserAt(s, q.cid).subs.Values
            then Granted(q, Send(s, q, pick)) else Refused(s, q, Send(s, q, pick))
  {
    if Get(q.table, "destination") in UserAt(s, q.cid).subs.Values {
      ExactDelivery(s, q, pick, q.cid);
    }
  }

  lemma SubscribeReplies(s: State, q: Request)
    requires q.cid in s.byConn && q.kind == "SUBSCRIBE"
    ensures if Get(q.table, "id") !in UserAt(s, q.cid).subs
            then Granted(q, Subscribe(s, q)) else Refused(s, q, Subscribe(s, q))
  {
    hide Push;
  }

  lemma UnsubscribeReplies(s: State, q: Request)
    requires Inv(s) && q.cid in s.byConn && q.kind == "UNSUBSCRIBE"
    ensures if Get(q.table, "id") in UserAt(s, q.cid).subs
            then Granted(q, Unsubscribe(s, q)) else Refused(s, q, Unsubscribe(s, q))
  {
    hide RemoveFirst;
    hide Inv;
    UnsubscribeKeeps(s, q);
  }

  lemma SignOffReplies(s: State, q: Request)
    requires Inv(s) && q.cid in s.byConn && q.kind == "DISCONNECT"
    ensures Granted(q, SignOff(s, q))
  {
    hide Leave;
    hide Inv;
    SignOffKeeps(s, q);
  }

  /** What it takes for a frame to be granted. */
  predicate Entitled(s: State, q: Request) {
    && (q.cid in s.byConn || q.kind == "CONNECT") && Objection(q.kind, q.table, q.receipt) == None
    && (q.kind == "CONNECT" ==> LoginAccepted(s, q))
    && (q.kind == "SEND" ==> Get(q.table, "destination") in UserAt(s, q.cid).subs.Values)
    && (q.kind == "SUBSCRIBE" ==> Get(q.table, "id") !in UserAt(s, q.cid).subs)
    && (q.kind == "UNSUBSCRIBE" ==> Get(q.table, "id") in UserAt(s, q.cid).subs)
  }

  /**
   Every frame is granted or refused: granted exactly if it is entitled to it. No handler throws while the
   indexes agree.
   */
  lemma ReplyDiscipline(s: State, q: Request, pick: string)
    requires Inv(s)
    ensures if Entitled(s, q) then Granted(q, Handle(s, q, pick)) else Refused(s, q, Handle(s, q, pick))
  {
    hide Inv;
    hide Login;
    hide Send;
    hide Subscribe;
    hide Unsubscribe;
    hide SignOff;
    hide Objection;
    hide LoginAccepted;
    hide Get;
    if (q.cid in s.byConn || q.kind == "CONNECT") && Objection(q.kind, q.table, q.receipt) == None {
      KindsUnobjected(q.kind, q.table, q.receipt);
      if q.kind == "CONNECT" {
        LoginReplies(s, q);
      } else if q.kind == "SEND" {
        SendReplies(s, q, pick);
      } else if q.kind == "SUBSCRIBE" {
        SubscribeReplies(s, q);
      } else if q.kind == "UNSUBSCRIBE" {
        UnsubscribeReplies(s, q);
      } else {
        SignOffReplies(s, q);
      }
    }
  }

  /** An ERROR quotes the message it answers, without its last character. */
  lemma ErrorQuotes(s: State, c: int, message: string, pick: string, d: (int, Frame))
    requires Inv(s) && d in Process(s, c, message, pick).sent && d.1.Error?
    ensures d.0 == c && message != "" && d.1.original + [message[|message| - 1]] == message
  {
    hide Inv;
    hide Handle;
    hide Parse;
    hide Entitled;
    var q := RequestOf(c, message).value;
    TextIsNotEmpty(message);
    ReplyDiscipline(s, q, pick);
    HandleFramed(s, q, pick, d);
  }

  lemma TextIsNotEmpty(message: string)
    requires Parse(message).Some?
    ensures message != ""
  {
  }

  /** What the outcome's ERROR, if it has one, is about. */
  predicate About(o: Outcome, kind: string) {
    o.reply.Some? && o.reply.value.Error? ==> o.reply.value.kind == kind
  }

  lemma LoginAbout(s: State, q: Request)
    ensures About(Login(s, q), "Login Error")
  {
    hide Get;
  }

  lemma OthersAbout(s: State, q: Request, pick: string)
    requires q.cid in s.byConn
    ensures About(Send(s, q, pick), "SEND command error") && About(Subscribe(s, q), "Subscription Error")
    ensures About(Unsubscribe(s, q), "Unsubscribe Error") && About(SignOff(s, q), "")
  {
    hide Broadcast;
    hide Leave;
    hide RemoveFirst;
    hide Get;
    hide Dec;
    hide Push;
  }

  /** An ERROR is about the login exactly if it answers a CONNECT that has passed its validator. */
  lemma LoginErrorExactly(s: State, q: Request, pick: string)
    requires Handle(s, q, pick).reply.Some? && Handle(s, q, pick).reply.value.Error?
    ensures var kind := Handle(s, q, pick).reply.value.kind;
            && '\n' !in kind
            && (kind == "Login Error" <==> q.kind == "CONNECT" && Objection(q.kind, q.table, q.receipt) == None)
  {
    hide Objection;
    hide Login;
    hide Send;
    hide Subscribe;
    hide Unsubscribe;
    hide SignOff;
    hide Get;
    KindsDiffer();
    LoginAbout(s, q);
    if q.cid in s.byConn {
      OthersAbout(s, q, pick);
    }
  }

  lemma KindsDiffer()
    ensures '\n' !in "Login Error" && '\n' !in "SEND command error" && '\n' !in "Subscription Error"
    ensures '\n' !in "Unsubscribe Error" && '\n' !in "Not logged in error" && '\n' !in "Stomp Syntax Error"
    ensures |"Login Error"| == 11 && |"SEND command error"| == 18 && |"Subscription Error"| == 18
    ensures |"Unsubscribe Error"| == 17 && |"Not logged in error"| == 19 && |"Stomp Syntax Error"| == 18
  {
  }

  lemma KindsUnobjected(kind: string, t: Table, receipt: bool)
    requires Objection(kind, t, receipt) == None
    ensures Known(kind) && (kind == "DISCONNECT" ==> receipt)
  {
  }

  /** Once the answer is an ERROR only a DISCONNECT can change anything, and nothing but the ERROR is sent. */
  lemma RefusedChangesNothing(s: State, q: Request, pick: string)
    requires Inv(s) && q.kind != "DISCONNECT"
    requires Handle(s, q, pick).reply.Some? && Handle(s, q, pick).reply.value.Error?
    ensures Conclude(q, Handle(s, q, pick)).state == s && !Entitled(s, q)
    ensures Conclude(q, Handle(s, q, pick)).sent
            == if q.cid in s.handlers then [(q.cid, Handle(s, q, pick).reply.value)] else []
  {
    hide Inv;
    hide Handle;
    hide Entitled;
    ReplyDiscipline(s, q, pick);
  }

  /** Handling a readable frame of a live connection throws exactly for a DISCONNECT before login. */
  lemma ThrowsOnly(s: State, q: Request, pick: string)
    requires Inv(s) && q.cid in s.handlers
    ensures Conclude(q, Handle(s, q, pick)).threw <==> q.kind == "DISCONNECT" && q.cid !in s.byConn
  {
    hide Objection;
    hide Dispatch;
    hide Inv;
    ReplyDiscipline(s, q, pick);
    HandleFramed(s, q, pick, (0, Connected));
  }

  /** A text without reading, any text on a connection that is gone, and a DISCONNECT before login. */
  predicate Throws(s: State, c: int, text: string) {
    match RequestOf(c, text)
    case None => true
    case Some(q) => c !in s.handlers || (q.kind == "DISCONNECT" && c !in s.byConn)
  }

  /** process throws on exactly these, whatever id a table yields. */
  lemma ThrowsExactly(s: State, c: int, text: string, pick: string)
    requires Inv(s)
    ensures Process(s, c, text, pick).threw <==> Throws(s, c, text)
  {
    hide Objection;
    hide Dispatch;
    hide Handle;
    hide Parse;
    if RequestOf(c, text).Some? {
      var q := RequestOf(c, text).value;
      if c in s.handlers {
        ThrowsOnly(s, q, pick);
      } else {
        assert ConnOk(s, c) && (c in s.byConn ==> UserOk(s, s.byConn[c]));
        hide Inv;
        hide LoginAccepted;
        ReplyDiscipline(s, q, pick);
        HandleFramed(s, q, pick, (0, Connected));
      }
    }
  }

  /** What no handler does: drop a live handler, lower the counter, or number a message otherwise than by it. */
  ghost predicate Framed(s: State, o: Outcome, d: (int, Frame)) {
    && o.state.handlers == s.handlers && s.messageId <= o.state.messageId
    && (o.reply.Some? ==> !o.reply.value.Message?)
    && (d in o.deliveries ==> d.1.Message? && d.1.id == Dec(s.messageId) && o.state.messageId == s.messageId + 1)
  }

  lemma {:induction false} BroadcastNumbers(s: State, names: seq<string>, f: Frame, d: (int, Frame))
    requires d in Broadcast(s, names, f).0
    ensures d.1 == f
    decreases names
  {
    if UserOf(s, names[0]).cid in s.handlers && d != (UserOf(s, names[0]).cid, f) {
      BroadcastNumbers(s, names[1..], f, d);
    }
  }

  lemma SendFramed(s: State, q: Request, pick: string, d: (int, Frame))
    ensures Framed(s, Send(s, q, pick), d) && Send(s, q, pick).state.byConn == s.byConn
  {
    hide Dec;
    hide UserAt;
    var t := Get(q.table, "destination");
    if t in UserAt(s, q.cid).subs.Values && t in s.topics {
      var f := Message(pick, Dec(s.messageId), t, Get(q.table, "game_updates"));
      if d in Broadcast(s, s.topics[t], f).0 {
        BroadcastNumbers(s, s.topics[t], f, d);
      }
    }
  }

  lemma LoginFramed(s: State, q: Request, d: (int, Frame))
    ensures Framed(s, Login(s, q), d)
  {
    hide Dec;
  }

  lemma SubscribeFramed(s: State, q: Request, d: (int, Frame))
    requires q.cid in s.byConn
    ensures Framed(s, Subscribe(s, q), d) && Subscribe(s, q).state.byConn == s.byConn
  {
    hide Dec;
    hide UserOf;
    hide Push;
  }

  lemma UnsubscribeFramed(s: State, q: Request, d: (int, Frame))
    requires q.cid in s.byConn
    ensures Framed(s, Unsubscribe(s, q), d) && Unsubscribe(s, q).state.byConn == s.byConn
  {
    hide Dec;
    hide UserOf;
    hide RemoveFirst;
  }

  lemma SignOffFramed(s: State, q: Request, d: (int, Frame))
    requires q.cid in s.byConn
    ensures Framed(s, SignOff(s, q), d) && SignOff(s, q).state.byConn == s.byConn
  {
    hide Dec;
    hide UserOf;
    hide Leave;
  }

  lemma DispatchFramed(s: State, q: Request, pick: string, d: (int, Frame))
    requires q.cid in s.byConn || q.kind == "CONNECT"
    ensures Framed(s, Dispatch(s, q, pick), d)
    ensures q.kind != "CONNECT" ==> Dispatch(s, q, pick).state.byConn == s.byConn
  {
    hide Framed;
    hide Login;
    hide Send;
    hide Subscribe;
    hide Unsubscribe;
    hide SignOff;
    if q.kind == "CONNECT" {
      LoginFramed(s, q, d);
    } else {
      SendFramed(s, q, pick, d);
      SubscribeFramed(s, q, d);
      UnsubscribeFramed(s, q, d);
      SignOffFramed(s, q, d);
    }
  }

  lemma HandleFramed(s: State, q: Request, pick: string, d: (int, Frame))
    ensures Framed(s, Handle(s, q, pick), d)
    ensures q.kind != "CONNECT" ==> Handle(s, q, pick).state.byConn == s.byConn
  {
    hide Dispatch;
    hide Objection;
    hide Dec;
    if (q.cid in s.byConn || q.kind == "CONNECT") && Objection(q.kind, q.table, q.receipt) == None {
      DispatchFramed(s, q, pick, d);
    }
  }

  /** The header names a validator wants, besides an optional receipt. */
  function Wanted(kind: string): set<string> {
    if kind == "CONNECT" then {"accept-version", "host", "login", "passcode"}
    else if kind == "SEND" then {"destination"}
    else if kind == "SUBSCRIBE" then {"destination", "id"}
    else if kind == "UNSUBSCRIBE" then {"id"}
    else {}
  }

  predicate Known(kind: string) {
    kind in ["CONNECT", "SEND", "SUBSCRIBE", "UNSUBSCRIBE", "DISCONNECT"]
  }

  /** The table process builds from a frame's headers and body. */
  function FrameTable(kind: string, headers: Table, body: string): Table {
    (if body == "" then headers else headers["game_updates" := body])["FrameType" := kind]
  }

  lemma {:induction false} SmallerSubset(a: set<string>, b: set<string>)
    requires a <= b
    ensures |a| <= |b| && (|a| == |b| ==> a == b)
    decreases |a|
  {
    if x :| x in a {
      SmallerSubset(a - {x}, b - {x});
      assert a == (a - {x}) + {x} && b == (b - {x}) + {x};
    }
  }

  /** The header names of a frame besides those every validator sets aside. */
  function Rest(headers: Table): set<string> {
    headers.Keys - {"FrameType", "receipt", "game_updates"}
  }

  lemma DropOne(keys: set<string>, x: string)
    ensures |keys| == |keys - {x}| + (if x in keys then 1 else 0)
  {
    if x in keys {
      assert keys == (keys - {x}) + {x};
    } else {
      assert keys == keys - {x};
    }
  }

  lemma SplitCount(keys: set<string>, f: string, r: string, g: string)
    requires f in keys && f != r && f != g && r != g
    ensures |keys| == |keys - {f, r, g}| + 1 + (if r in keys then 1 else 0) + (if g in keys then 1 else 0)
  {
    DropOne(keys, f);
    DropOne(keys - {f}, r);
    DropOne(keys - {f} - {r}, g);
    assert keys - {f} - {r} - {g} == keys - {f, r, g};
  }

  lemma EntryCount(kind: string, headers: Table, body: string)
    ensures var t := FrameTable(kind, headers, body);
            |t| == |Rest(headers)| + 1 + (if "receipt" in headers then 1 else 0)
                + (if "game_updates" in t then 1 else 0)
  {
    var t := FrameTable(kind, headers, body);
    SplitCount(t.Keys, "FrameType", "receipt", "game_updates");
    assert t.Keys - {"FrameType", "receipt", "game_updates"} == Rest(headers);
    assert |t| == |t.Keys|;
  }

  lemma WantedSize(kind: string)
    ensures |Wanted(kind)| == if kind == "CONNECT" then 4 else if kind == "SEND" || kind == "UNSUBSCRIBE" then 1
                              else if kind == "SUBSCRIBE" then 2 else 0
  {
    var one: set<string> := {"accept-version"};
    var two := one + {"host"};
    var three := two + {"login"};
    assert {"accept-version", "host", "login", "passcode"} == three + {"passcode"};
    assert {"destination", "id"} == {"destination"} + {"id"};
  }

  /** Having as many names as wanted, all wanted ones among them, means having exactly those. */
  lemma CountAndMembers(kind: string, headers: Table)
    ensures |Rest(headers)| == |Wanted(kind)| && Wanted(kind) <= Rest(headers) <==> Rest(headers) == Wanted(kind)
  {
    if Wanted(kind) <= Rest(headers) {
      SmallerSubset(Wanted(kind), Rest(headers));
    }
  }

  /** A table with n names of interest, and whether it holds a receipt header and a body. */
  predicate Counts(t: Table, n: nat, receipt: bool, hasBody: bool) {
    && |t| == n + 1 + (if receipt then 1 else 0) + (if hasBody then 1 else 0)
    && (hasBody <==> "game_updates" in t)
  }

  lemma ConnectExact(t: Table, n: nat, receipt: bool, hasBody: bool)
    requires Counts(t, n, receipt, hasBody)
    ensures Objection("CONNECT", t, receipt) == None <==> !hasBody && n == 4 && Wanted("CONNECT") <= t.Keys
  {
  }

  lemma SendExact(t: Table, n: nat, receipt: bool, hasBody: bool)
    requires Counts(t, n, receipt, hasBody)
    ensures Objection("SEND", t, receipt) == None <==> hasBody && n == 1 && Wanted("SEND") <= t.Keys
  {
  }

  lemma SubscribeExact(t: Table, n: nat, receipt: bool, hasBody: bool)
    requires Counts(t, n, receipt, hasBody)
    ensures Objection("SUBSCRIBE", t, receipt) == None <==> !hasBody && n == 2 && Wanted("SUBSCRIBE") <= t.Keys
  {
  }

  lemma UnsubscribeExact(t: Table, n: nat, receipt: bool, hasBody: bool)
    requires Counts(t, n, receipt, hasBody)
    ensures Objection("UNSUBSCRIBE", t, receipt) == None <==> !hasBody && n == 1 && Wanted("UNSUBSCRIBE") <= t.Keys
  {
  }

  lemma DisconnectExact(t: Table, n: nat, receipt: bool, hasBody: bool)
    requires Counts(t, n, receipt, hasBody)
    ensures Objection("DISCONNECT", t, receipt) == None <==> !hasBody && n == 0 && receipt
  {
  }

  lemma WantedAreOfInterest(kind: string, headers: Table, body: string)
    ensures Wanted(kind) <= FrameTable(kind, headers, body).Keys <==> Wanted(kind) <= Rest(headers)
  {
    forall k | k in Wanted(kind) ensures k in FrameTable(kind, headers, body) <==> k in Rest(headers) {
      assert k != "FrameType" && k != "receipt" && k != "game_updates";
    }
  }

  /**
   The count of entries and the membership tests together accept exactly the wanted headers, an
   optional receipt (required for DISCONNECT), and a body exactly for SEND. A header spelled
   FrameType is overwritten, and one spelled game_updates passes for a body.
   */
  lemma ValidatorsExact(kind: string, headers: Table, body: string)
    ensures Objection(kind, FrameTable(kind, headers, body), "receipt" in headers) == None <==>
              && Known(kind) && Rest(headers) == Wanted(kind)
              && (body != "" || "game_updates" in headers <==> kind == "SEND")
              && (kind == "DISCONNECT" ==> "receipt" in headers)
  {
    var t, n, receipt := FrameTable(kind, headers, body), |Rest(headers)|, "receipt" in headers;
    var hasBody := body != "" || "game_updates" in headers;
    EntryCount(kind, headers, body);
    assert Counts(t, n, receipt, hasBody);
    WantedSize(kind);
    CountAndMembers(kind, headers);
    WantedAreOfInterest(kind, headers, body);
    if kind == "CONNECT" {
      ConnectExact(t, n, receipt, hasBody);
    } else if kind == "SEND" {
      SendExact(t, n, receipt, hasBody);
    } else if kind == "SUBSCRIBE" {
      SubscribeExact(t, n, receipt, hasBody);
    } else if kind == "UNSUBSCRIBE" {
      UnsubscribeExact(t, n, receipt, hasBody);
    } else if kind == "DISCONNECT" {
      DisconnectExact(t, n, receipt, hasBody);
    }
  }

  /** A message that leaves in one step carries the counter's value, and the counter moves on. */
  lemma StepNumbers(s: State, e: Event, d: (int, Frame))
    ensures s.messageId <= Step(s, e).state.messageId
    ensures d in Step(s, e).sent && d.1.Message? ==>
            d.1.id == Dec(s.messageId) && Step(s, e).state.messageId == s.messageId + 1
  {
    hide Handle;
    hide Dec;
    if e.Received? && RequestOf(e.conn, e.message).Some? {
      HandleFramed(s, RequestOf(e.conn, e.message).value, e.pick, d);
    }
  }

  function Outputs(s: State, run: seq<Event>): seq<seq<(int, Frame)>>
    decreases run
  {
    if run == [] then [] else [Step(s, run[0]).sent] + Outputs(Step(s, run[0]).state, run[1..])
  }

  /** A message sent in step i is numbered at or after the counter at the start of the run. */
  lemma {:induction false} NumberedFrom(s: State, run: seq<Event>, i: nat, d: (int, Frame)) returns (n: nat)
    requires i < |Outputs(s, run)| && d in Outputs(s, run)[i] && d.1.Message?
    ensures s.messageId <= n && d.1.id == Dec(n)
    decreases run
  {
    hide Step;
    hide Dec;
    StepNumbers(s, run[0], d);
    if i == 0 {
      n := s.messageId;
    } else {
      n := NumberedFrom(Step(s, run[0]).state, run[1..], i - 1, d);
    }
  }

  /** Messages published by different frames of a run carry different message ids. */
  lemma {:induction false} MessageIdsDistinct(s: State, run: seq<Event>, i: nat, j: nat, d: (int, Frame),
                                              e: (int, Frame))
    requires i < j < |Outputs(s, run)| && d in Outputs(s, run)[i] && e in Outputs(s, run)[j]
    requires d.1.Message? && e.1.Message?
    ensures d.1.id != e.1.id
    decreases run
  {
    hide Step;
    hide Dec;
    var s' := Step(s, run[0]).state;
    if i > 0 {
      MessageIdsDistinct(s', run[1..], i - 1, j - 1, d, e);
    } else {
      StepNumbers(s, run[0], d);
      var n := NumberedFrom(s', run[1..], j - 1, e);
      if d.1.id == e.1.id {
        DecInjective(s.messageId, n);
      }
    }
  }
}
