/** What a login leads to over a whole run: the password of a name is the one of its first login. */
module Logins {
  import opened Wrappers
  import opened Text
  import opened Frames
  import B = Broker
  import I = BrokerInvariant

  /** A well-formed CONNECT for user u with passcode p. */
  predicate Connects(message: string, u: string, p: string) {
    && Parse(message).Some?
    && var m := Parse(message).value;
       && m.kind == "CONNECT" && B.Objection("CONNECT", m.table, m.receipt) == None
       && Get(m.table, "login") == u && Get(m.table, "passcode") == p
  }

  lemma HeadersAreLines(message: string, k: string)
    requires Parse(message).Some? && k != "game_updates" && k != "FrameType"
    ensures '\n' !in Get(Parse(message).value.table, k)
  {
    var line := Find(message, "\n").value;
    ValuesAreLines(message[line + 1..], map[]);
  }

  /** The tests of host and version compare with texts that no header has. */
  lemma HostAndVersionPass(message: string)
    requires Parse(message).Some?
    ensures var t := Parse(message).value.table;
            Get(t, "host") != "stomp.cs.bgu.ac.il\n" && Get(t, "accept-version") != "1.2\n"
  {
    hide Parse;
    HeadersAreLines(message, "host");
    HeadersAreLines(message, "accept-version");
    assert "stomp.cs.bgu.ac.il\n"[18] == '\n' && "1.2\n"[3] == '\n';
  }

  /** The one answer to a CONNECT on connection c: CONNECTED, or an ERROR about the login. */
  predicate Admitted(r: B.Result, c: int) {
    !r.threw && r.sent == [(c, Connected)]
  }

  predicate TurnedAway(s: B.State, r: B.Result, c: int) {
    && !r.threw && r.state == s && |r.sent| == 1 && r.sent[0].0 == c
    && r.sent[0].1.Error? && r.sent[0].1.kind == "Login Error"
  }

  lemma ConnectHandled(s: B.State, c: int, message: string, u: string, p: string, pick: string)
    requires Connects(message, u, p)
    ensures var m := Parse(message).value;
            var q := B.Request(c, m.kind, m.table, m.receipt, message[..|message| - 1]);
            B.Process(s, c, message, pick) == B.Conclude(q, B.Login(s, q))
  {
    hide B.Login;
    hide B.Objection;
    hide Parse;
  }

  /** A name that is not known yet is admitted with any password, and that password is kept. */
  lemma FirstLogin(s: B.State, c: int, message: string, u: string, p: string, pick: string)
    requires Connects(message, u, p) && u !in s.users && c in s.handlers
    ensures var r := B.Process(s, c, message, pick);
            && Admitted(r, c) && u in r.state.users && r.state.users[u].password == p
            && r.state.users[u].connected && r.state.users[u].cid == c
  {
    hide B.Process;
    hide B.Objection;
    hide Parse;
    ConnectHandled(s, c, message, u, p, pick);
    HostAndVersionPass(message);
  }

  /** A known name is admitted exactly if it is not connected and the password is the one kept. */
  lemma LaterLogin(s: B.State, c: int, message: string, u: string, p: string, pick: string)
    requires Connects(message, u, p) && u in s.users && c in s.handlers
    ensures var r := B.Process(s, c, message, pick);
            if !s.users[u].connected && p == s.users[u].password then Admitted(r, c) else TurnedAway(s, r, c)
  {
    hide B.Process;
    hide B.Objection;
    hide Parse;
    ConnectHandled(s, c, message, u, p, pick);
  }

  /** Nobody's password ever changes, and no name is forgotten. */
  ghost predicate PasswordsStay(s: B.State, s': B.State) {
    forall u :: u in s.users ==> u in s'.users && s'.users[u].password == s.users[u].password
  }

  lemma AttachKeepsPasswords(s: B.State, c: int, name: string, u: B.User)
    requires name in s.users ==> u.password == s.users[name].password
    ensures PasswordsStay(s, B.Attach(s, c, name, u))
  {
  }

  lemma LoginKeepsPasswords(s: B.State, q: B.Request)
    ensures PasswordsStay(s, B.Login(s, q).state)
  {
    hide Get;
    hide B.Attach;
    var name, passcode := Get(q.table, "login"), Get(q.table, "passcode");
    if name in s.users {
      AttachKeepsPasswords(s, q.cid, name, s.users[name].(connected := true));
    } else {
      AttachKeepsPasswords(s, q.cid, name, B.User(passcode, true, 0, map[]));
    }
  }

  lemma SendKeepsPasswords(s: B.State, q: B.Request, pick: string)
    ensures B.Send(s, q, pick).state.users == s.users
  {
    hide B.Broadcast;
    hide Get;
  }

  lemma SubscribeKeepsPasswords(s: B.State, q: B.Request)
    requires q.cid in s.byConn
    ensures PasswordsStay(s, B.Subscribe(s, q).state) && PasswordsStay(s, B.Unsubscribe(s, q).state)
    ensures PasswordsStay(s, B.SignOff(s, q).state)
  {
    hide B.RemoveFirst;
    hide B.Leave;
    hide Get;
    hide Push;
  }

  lemma HandleKeepsPasswords(s: B.State, q: B.Request, pick: string)
    ensures PasswordsStay(s, B.Handle(s, q, pick).state)
  {
    hide B.Objection;
    hide B.Login;
    hide B.Send;
    hide B.Subscribe;
    hide B.Unsubscribe;
    hide B.SignOff;
    LoginKeepsPasswords(s, q);
    SendKeepsPasswords(s, q, pick);
    if q.cid in s.byConn {
      SubscribeKeepsPasswords(s, q);
    }
  }

  lemma StepKeepsPasswords(s: B.State, e: I.Event)
    ensures PasswordsStay(s, I.Step(s, e).state)
  {
    hide B.Handle;
    hide Parse;
    if e.Received? && B.RequestOf(e.conn, e.message).Some? {
      HandleKeepsPasswords(s, B.RequestOf(e.conn, e.message).value, e.pick);
    }
  }

  lemma {:induction false} RunKeepsPasswords(s: B.State, run: seq<I.Event>)
    ensures PasswordsStay(s, I.Run(s, run))
    decreases run
  {
    hide I.Step;
    if run == [] {
    } else {
      StepKeepsPasswords(s, run[0]);
      RunKeepsPasswords(I.Step(s, run[0]).state, run[1..]);
    }
  }

  /**
   The password of a name is the passcode of its first login: that login is admitted, and whatever happens
   then, a later one is admitted if and only if the name is not connected and the passcode is the same.
   */
  lemma PasswordDecides(s: B.State, c: int, first: string, u: string, p: string, pick: string,
                        run: seq<I.Event>, c': int, later: string, p': string, pick': string)
    requires u !in s.users && c in s.handlers && Connects(first, u, p)
    requires c' in I.Run(I.Step(s, I.Received(c, first, pick)).state, run).handlers && Connects(later, u, p')
    ensures Admitted(I.Step(s, I.Received(c, first, pick)), c)
    ensures var t := I.Run(I.Step(s, I.Received(c, first, pick)).state, run);
            var r := I.Step(t, I.Received(c', later, pick'));
            && u in t.users
            && if p' == p && !t.users[u].connected then Admitted(r, c') else TurnedAway(t, r, c')
  {
    hide Connects;
    hide B.Process;
    hide I.Run;
    FirstLogin(s, c, first, u, p, pick);
    var s' := I.Step(s, I.Received(c, first, pick)).state;
    RunKeepsPasswords(s', run);
    LaterLogin(I.Run(s', run), c', later, u, p', pick');
  }
}
