/** The two kinds of frame that break the broker's indexes, each at the end of a run that starts with a new server. */
module BadFrames {
  import opened Wrappers
  import opened Text
  import opened Frames
  import opened ClientFrames
  import opened Logins
  import B = Broker
  import I = BrokerInvariant
  import D = BrokerDelivery
  import Session

  /** The frame a client logs in with. */
  function ConnectText(user: string, passcode: string): string {
    "CONNECT" + "\n" + "accept-version" + ":" + "1.2" + "\n" + "host" + ":" + "stomp.cs.bgu.ac.il" + "\n"
    + "login" + ":" + user + "\n" + "passcode" + ":" + passcode + "\n" + "\n"
  }

  function ConnectHeaders(user: string, passcode: string): Table {
    map["accept-version" := "1.2", "host" := "stomp.cs.bgu.ac.il", "login" := user, "passcode" := passcode]
  }

  lemma FourHeaders(k1: string, v1: string, k2: string, v2: string, k3: string, v3: string, k4: string, v4: string,
                    kind: string)
    ensures var h := [(k1, v1), (k2, v2), (k3, v3), (k4, v4)];
            && Print(kind, h, "") == kind + "\n" + k1 + ":" + v1 + "\n" + k2 + ":" + v2 + "\n" + k3 + ":" + v3 + "\n"
                                     + k4 + ":" + v4 + "\n" + "\n"
            && TableOf(h, map[]) == map[k1 := v1][k2 := v2][k3 := v3][k4 := v4]
  {
    hide PrintHeaders;
    hide TableOf;
    var more := [(k2, v2), (k3, v3), (k4, v4)];
    HeaderInFront((k1, v1), more, map[]);
    ThreeHeaders(k2, v2, k3, v3, k4, v4, map[k1 := v1]);
    assert [(k1, v1)] + more == [(k1, v1), (k2, v2), (k3, v3), (k4, v4)];
  }

  lemma ConnectPrinted(user: string, passcode: string)
    ensures var printed := [("accept-version", "1.2"), ("host", "stomp.cs.bgu.ac.il"), ("login", user),
            ("passcode", passcode)];
            && ConnectText(user, passcode) == Print("CONNECT", printed, "")
            && TableOf(printed, map[]) == ConnectHeaders(user, passcode)
  {
    hide Print;
    hide TableOf;
    FourHeaders("accept-version", "1.2", "host", "stomp.cs.bgu.ac.il", "login", user, "passcode", passcode, "CONNECT");
  }

  lemma ConnectAccepted(user: string, passcode: string)
    ensures B.Objection("CONNECT", D.FrameTable("CONNECT", ConnectHeaders(user, passcode), ""), false) == None
  {
    var headers := ConnectHeaders(user, passcode);
    assert D.Rest(headers) == D.Wanted("CONNECT");
    D.ValidatorsExact("CONNECT", headers, "");
    hide B.Objection;
    hide D.FrameTable;
  }

  lemma ConnectTable(user: string, passcode: string)
    ensures var t := D.FrameTable("CONNECT", ConnectHeaders(user, passcode), "");
            && Get(t, "login") == user && Get(t, "passcode") == passcode
            && Get(t, "host") != "stomp.cs.bgu.ac.il\n" && Get(t, "accept-version") != "1.2\n"
  {
    assert |"stomp.cs.bgu.ac.il\n"| == 19 && |"stomp.cs.bgu.ac.il"| == 18;
    assert |"1.2\n"| == 4 && |"1.2"| == 3;
  }

  /** A CONNECT of a user the server does not know is accepted on any connection. */
  lemma ConnectReceived(s: B.State, c: int, user: string, passcode: string)
    requires '\n' !in user && '\n' !in passcode && user !in s.users
    ensures var q := B.RequestOf(c, ConnectText(user, passcode));
            && q.Some? && q.value.cid == c && q.value.kind == "CONNECT" && I.LoginAccepted(s, q.value)
            && B.Objection("CONNECT", q.value.table, q.value.receipt) == None
            && Get(q.value.table, "login") == user
    ensures Connects(ConnectText(user, passcode), user, passcode)
  {
    ConnectPrinted(user, passcode);
    ConnectAccepted(user, passcode);
    ConnectTable(user, passcode);
    ConnectPrintable(user, passcode);
    hide ConnectText;
    hide Print;
    hide Parse;
    hide B.Objection;
    hide Get;
    hide TableOf;
    hide Printable;
    hide ConnectHeaders;
    var printed := [("accept-version", "1.2"), ("host", "stomp.cs.bgu.ac.il"), ("login", user), ("passcode", passcode)];
    PrintedIsReceived("CONNECT", printed, "");
    assert D.FrameTable("CONNECT", ConnectHeaders(user, passcode), "")
           == ConnectHeaders(user, passcode)["FrameType" := "CONNECT"];
  }

  /** A header name and a value without the characters that headers are cut at. */
  predicate Cut(k: string, v: string) {
    ':' !in k && '\n' !in k && '\n' !in v
  }

  lemma FirstTwoCut()
    ensures Cut("accept-version", "1.2") && Cut("host", "stomp.cs.bgu.ac.il")
  {
  }

  lemma LastTwoCut(user: string, passcode: string)
    requires '\n' !in user && '\n' !in passcode
    ensures Cut("login", user) && Cut("passcode", passcode) && '\n' !in "CONNECT"
    ensures "receipt" !in ConnectHeaders(user, passcode)
  {
  }

  lemma CutIsPrintable(h: seq<(string, string)>)
    requires forall x :: x in h ==> Cut(x.0, x.1)
    ensures Printable(h)
  {
  }

  lemma ConnectPrintable(user: string, passcode: string)
    requires '\n' !in user && '\n' !in passcode
    ensures Printable([("accept-version", "1.2"), ("host", "stomp.cs.bgu.ac.il"), ("login", user),
            ("passcode", passcode)])
    ensures '\n' !in "CONNECT" && "receipt" !in ConnectHeaders(user, passcode)
  {
    hide Cut;
    hide Printable;
    hide ConnectHeaders;
    FirstTwoCut();
    LastTwoCut(user, passcode);
    CutIsPrintable([("accept-version", "1.2"), ("host", "stomp.cs.bgu.ac.il"), ("login", user),
                   ("passcode", passcode)]);
  }

  lemma LoggedIn(s: B.State, c: int, user: string, passcode: string, pick: string)
    requires I.Inv(s) && c in s.handlers && c !in s.byConn && user !in s.users
    requires '\n' !in user && '\n' !in passcode
    ensures var s' := B.Process(s, c, ConnectText(user, passcode), pick).state;
            && I.Inv(s') && c in s'.byConn && B.UserAt(s', c).subs == map[]
            && forall u :: u in s'.users ==> u in s.users || u == user
  {
    hide I.Inv;
    hide B.Objection;
    hide ConnectText;
    hide Get;
    hide Parse;
    ConnectReceived(s, c, user, passcode);
    var q := B.RequestOf(c, ConnectText(user, passcode)).value;
    I.LoginKeeps(s, q);
  }

  lemma {:induction false} RunMore(s: B.State, run: seq<I.Event>, e: I.Event)
    ensures I.Run(s, run + [e]) == I.Step(I.Run(s, run), e).state
    decreases run
  {
    hide I.Step;
    if run == [] {
      assert run + [e] == [e];
      assert I.Run(I.Step(s, e).state, [e][1..]) == I.Step(s, e).state;
    } else {
      assert (run + [e])[0] == run[0] && (run + [e])[1..] == run[1..] + [e];
      RunMore(I.Step(s, run[0]).state, run[1..], e);
    }
  }

  /** A new server on which one user has just logged in. */
  function Login(c: int, user: string, passcode: string): seq<I.Event> {
    [I.Accepted(c)] + [I.Received(c, ConnectText(user, passcode), "")]
  }

  lemma AfterLogin(c: int, user: string, passcode: string)
    requires '\n' !in user && '\n' !in passcode
    ensures var s := I.Run(B.Start, Login(c, user, passcode));
            && I.Inv(s) && c in s.byConn && B.UserAt(s, c).subs == map[] && forall u :: u in s.users ==> u == user
  {
    I.StartAgrees();
    I.StepKeeps(B.Start, I.Accepted(c));
    var s1 := I.Step(B.Start, I.Accepted(c)).state;
    assert s1.handlers == {c} && s1.byConn == map[] && s1.users == map[];
    RunMore(B.Start, [], I.Accepted(c));
    assert [] + [I.Accepted(c)] == [I.Accepted(c)] && I.Run(B.Start, []) == B.Start;
    RunMore(B.Start, [I.Accepted(c)], I.Received(c, ConnectText(user, passcode), ""));
    hide ConnectText;
    hide I.Inv;
    hide I.Run;
    LoggedIn(s1, c, user, passcode, "");
  }

  /** A second CONNECT on the same connection: the first user stays connected without one. */
  lemma SecondConnectBreaks(c: int, first: string, second: string, passcode: string)
    requires '\n' !in first && '\n' !in second && '\n' !in passcode && first != second
    ensures var run := Login(c, first, passcode);
            && I.Inv(I.Run(B.Start, run))
            && !I.Inv(I.Run(B.Start, run + [I.Received(c, ConnectText(second, passcode), "")]))
  {
    AfterLogin(c, first, passcode);
    hide ConnectText;
    hide I.Inv;
    hide I.Run;
    hide Parse;
    hide B.Objection;
    hide I.LoginAccepted;
    var run := Login(c, first, passcode);
    hide Login;
    var s, e := I.Run(B.Start, run), I.Received(c, ConnectText(second, passcode), "");
    RunMore(B.Start, run, e);
    ConnectReceived(s, c, second, passcode);
    I.StepKeeps(s, e);
  }

  /** A DISCONNECT without its receipt header is refused. */
  lemma BareDisconnect(c: int)
    ensures var q := B.RequestOf(c, "DISCONNECT\n\n");
            && q.Some? && q.value.cid == c && q.value.kind == "DISCONNECT"
            && B.Objection("DISCONNECT", q.value.table, q.value.receipt) != None
  {
    hide Parse;
    assert Print("DISCONNECT", [], "") == "DISCONNECT\n\n";
    PrintedIsReceived("DISCONNECT", [], "");
    var t: Table := map["FrameType" := "DISCONNECT"];
    assert map[]["FrameType" := "DISCONNECT"] == t && |t| == 1;
  }

  /** And ends the connection of a subscribed user without taking it off its topic. */
  lemma RefusedDisconnectBreaks(c: int, user: string, passcode: string, game: string)
    requires '\n' !in user && '\n' !in passcode && '\n' !in game
    ensures var run := Login(c, user, passcode) + [I.Received(c, SubscribeText(game, Dec(0), Dec(0)), "")];
            && I.Inv(I.Run(B.Start, run)) && !I.Inv(I.Run(B.Start, run + [I.Received(c, "DISCONNECT\n\n", "")]))
  {
    AfterLogin(c, user, passcode);
    SubscribeMeans(game, Dec(0), Dec(0));
    BareDisconnect(c);
    hide ConnectText;
    hide I.Inv;
    hide I.Run;
    hide Parse;
    hide B.Objection;
    hide SubscribeText;
    hide Dec;
    hide Means;
    var run := Login(c, user, passcode);
    hide Login;
    var s, e := I.Run(B.Start, run), I.Received(c, SubscribeText(game, Dec(0), Dec(0)), "");
    RunMore(B.Start, run, e);
    Session.ServeSubscribe(s, c, SubscribeText(game, Dec(0), Dec(0)), "/" + game, Dec(0), Dec(0), "");
    var s' := I.Run(B.Start, run + [e]);
    assert Dec(0) in B.UserAt(s', c).subs;
    RunMore(B.Start, run + [e], I.Received(c, "DISCONNECT\n\n", ""));
    I.StepKeeps(s', I.Received(c, "DISCONNECT\n\n", ""));
  }
}
