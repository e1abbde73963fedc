/**
 The broker as a state machine over values: what the server's protocol object does to the shared
 tables for each frame, and what it sends. A user is named by its key in `users`, under which the
 server stores exactly one object. Frames of different connections are processed one at a time.
 */
module Broker {
  import opened Wrappers
  import opened Text
  import opened Frames

  datatype User = User(password: string, connected: bool, cid: int, subs: Table)

  datatype State = State(
    users: map<string, User>,
    topics: map<string, seq<string>>,
    byConn: map<int, string>,
    handlers: set<int>,
    messageId: nat)

  const Start := State(map[], map[], map[], {}, 0)

  const Nobody := User("", false, -1, map[])

  function UserOf(s: State, u: string): User {
    if u in s.users then s.users[u] else Nobody
  }

  function UserAt(s: State, c: int): User {
    if c in s.byConn then UserOf(s, s.byConn[c]) else Nobody
  }

  /** What the validators object to, if anything. */
  function Objection(kind: string, t: Table, receipt: bool): Option<string> {
    var r := if receipt then 1 else 0;
    if kind == "CONNECT" then
      if "game_updates" in t then Some("CONNECT frame must not have a body.")
      else if |t| != 5 + r then
        Some("CONNECT frame must have 4 headers" + "(not including optional receipt)" + " instead got "
            + Dec(Others(t, 1)) + ".")
      else if "accept-version" !in t || "host" !in t || "login" !in t || "passcode" !in t then
        Some("CONNECT frame must have the headers:" + "accept-version,host,login,passcode")
      else None
    else if kind == "SEND" then
      if "game_updates" !in t then Some("SEND frame must have a body.")
      else if |t| != 3 + r then
        Some("SEND frame must have 1 header" + "(not including optional receipt)" + " instead got "
            + Dec(Others(t, 2)) + ".")
      else if "destination" !in t then Some("SEND frame must have a destination header.")
      else None
    else if kind == "SUBSCRIBE" then
      if "game_updates" in t then Some("SUBSCRIBE frame must not have a body.")
      else if |t| != 3 + r then
        Some("SUBSCRIBE frame must have 2 headers" + "(not including optinal receipt)" + " instead got "
            + Dec(Others(t, 1)) + ".")
      else if "id" !in t || "destination" !in t then
        Some("SUBSCRIBE frame must have" + " the next headers: destination,id.")
      else None
    else if kind == "UNSUBSCRIBE" then
      if "game_updates" in t then Some("UNSUBSCRIBE frame must not have a body.")
      else if |t| != 2 + r then
        Some("UNSUBSCRIBE frame must have 1 header" + "(not including optional receipt)" + " instead got "
            + Dec(Others(t, 1)) + ".")
      else if "id" !in t then Some("UNSUBSCRIBE frame must have id header")
      else None
    else if kind == "DISCONNECT" then
      if "game_updates" in t then Some("DISCONNECT frame must not have a body.")
      else if |t| != 2 then Some("DISCONNECT frame must have 1 header," + " instead got " + Dec(Others(t, 1)) + ".")
      else if !receipt then Some("DISCONNECT frame must include receipt header")
      else None
    else Some("Illegal STOMP frame type.")
  }

  /** The number of entries besides the first n kinds of entry every such frame has. */
  function Others(t: Table, n: nat): nat {
    if |t| < n then 0 else |t| - n
  }

  /** What handling a frame leads to, before the reply goes out. */
  datatype Outcome = Outcome(state: State, reply: Option<Frame>, deliveries: seq<(int, Frame)>, threw: bool)

  /** The frame being handled: its table, whether it asked for a receipt, and the text quoted in errors. */
  datatype Request = Request(cid: int, kind: string, table: Table, receipt: bool, original: string)

  function Refuse(s: State, q: Request, kind: string, description: string): Outcome {
    Outcome(s, Some(Error(kind, q.original, description, if q.receipt then Some(Get(q.table, "receipt")) else None)),
            [], false)
  }

  function Accept(s: State, q: Request, deliveries: seq<(int, Frame)>): Outcome {
    Outcome(s, if q.receipt then Some(Receipt(Get(q.table, "receipt"))) else None, deliveries, false)
  }

  function Attach(s: State, c: int, name: string, u: User): State {
    s.(users := s.users[name := u.(cid := c)], byConn := s.byConn[c := name])
  }

  function Login(s: State, q: Request): Outcome {
    var name, passcode := Get(q.table, "login"), Get(q.table, "passcode");
    if name !in s.users then
      if Get(q.table, "host") == "stomp.cs.bgu.ac.il\n" then Refuse(s, q, "Login Error", "The host is illegal.")
      else if Get(q.table, "accept-version") == "1.2\n" then
        Refuse(s, q, "Login Error", "The accept-version is wrong!")
      else
        Outcome(Attach(s, q.cid, name, User(passcode, true, 0, map[])), Some(Connected), [], false)
    else if s.users[name].connected then Refuse(s, q, "Login Error", "The user is already Logged in")
    else if s.users[name].password != passcode then Refuse(s, q, "Login Error", "The user password is incorrect")
    else Outcome(Attach(s, q.cid, name, s.users[name].(connected := true)), Some(Connected), [], false)
  }

  /** One copy of a frame to each name on the list, until one has no handler and the call throws. */
  function Broadcast(s: State, names: seq<string>, f: Frame): (seq<(int, Frame)>, bool) {
    if names == [] then ([], false)
    else if UserOf(s, names[0]).cid !in s.handlers then ([], true)
    else
      var (more, threw) := Broadcast(s, names[1..], f);
      ([(UserOf(s, names[0]).cid, f)] + more, threw)
  }

  /** An id under which the table maps to the destination; `pick` is the one its iteration meets first. */
  predicate Picks(subs: Table, destination: string, pick: string) {
    pick in subs && subs[pick] == destination
  }

  function Send(s: State, q: Request, pick: string): Outcome {
    var destination, subs := Get(q.table, "destination"), UserAt(s, q.cid).subs;
    if destination !in subs.Values then Refuse(s, q, "SEND command error", "destination not found.")
    else
      var f := Message(pick, Dec(s.messageId), destination, Get(q.table, "game_updates"));
      var s' := s.(messageId := s.messageId + 1);
      if destination !in s.topics then Outcome(s', None, [], true)
      else
        var (deliveries, threw) := Broadcast(s, s.topics[destination], f);
        if threw then Outcome(s', None, deliveries, true) else Accept(s', q, deliveries)
  }

  function SetSubs(s: State, name: string, subs: Table): State {
    s.(users := s.users[name := UserOf(s, name).(subs := subs)])
  }

  function Subscribe(s: State, q: Request): Outcome
    requires q.cid in s.byConn
  {
    var name, id, destination := s.byConn[q.cid], Get(q.table, "id"), Get(q.table, "destination");
    var subs := UserOf(s, name).subs;
    if id in subs then Refuse(s, q, "Subscription Error", "User is already subscribed" + " to this subscription id.")
    else
      Accept(SetSubs(s, name, subs[id := destination]).(topics := Push(s.topics, destination, name)), q, [])
  }

  function RemoveFirst(l: seq<string>, u: string): seq<string> {
    if l == [] then [] else if l[0] == u then l[1..] else [l[0]] + RemoveFirst(l[1..], u)
  }

  function RemoveTimes(l: seq<string>, u: string, n: nat): seq<string>
    decreases n
  {
    if n == 0 then l else RemoveTimes(RemoveFirst(l, u), u, n - 1)
  }

  function Unsubscribe(s: State, q: Request): Outcome
    requires q.cid in s.byConn
  {
    var name, id := s.byConn[q.cid], Get(q.table, "id");
    var subs := UserOf(s, name).subs;
    if id !in subs
    then Refuse(s, q, "Unsubscribe Error", "the user is trying to unsubscribe" + " from non-existing id.")
    else if subs[id] !in s.topics then Outcome(SetSubs(s, name, subs - {id}), None, [], true)
    else
      var topics := s.topics[subs[id] := RemoveFirst(s.topics[subs[id]], name)];
      Accept(SetSubs(s, name, subs - {id}).(topics := topics), q, [])
  }

  function IdsOf(subs: Table, t: string): set<string> {
    set id | id in subs && subs[id] == t
  }

  /** One removal from a topic's list for each id mapped to it. */
  function Leave(topics: map<string, seq<string>>, subs: Table, name: string): map<string, seq<string>> {
    map t | t in topics :: RemoveTimes(topics[t], name, |IdsOf(subs, t)|)
  }

  function SignOff(s: State, q: Request): Outcome
    requires q.cid in s.byConn
  {
    var name := s.byConn[q.cid];
    var subs := UserOf(s, name).subs;
    if subs.Values <= s.topics.Keys
    then Accept(s.(topics := Leave(s.topics, subs, name)), q, [])
    else Outcome(s, None, [], true)
  }

  /** The handler of a frame that has passed its validator. */
  function Dispatch(s: State, q: Request, pick: string): Outcome
    requires q.cid in s.byConn || q.kind == "CONNECT"
  {
    if q.kind == "CONNECT" then Login(s, q)
    else if q.kind == "SEND" then Send(s, q, pick)
    else if q.kind == "SUBSCRIBE" then Subscribe(s, q)
    else if q.kind == "UNSUBSCRIBE" then Unsubscribe(s, q)
    else SignOff(s, q)
  }

  function Handle(s: State, q: Request, pick: string): Outcome {
    if q.cid !in s.byConn && q.kind != "CONNECT"
    then Refuse(s, q, "Not logged in error", "client cannot make any action" + " before logging in user.")
    else
      match Objection(q.kind, q.table, q.receipt)
      case Some(description) => Refuse(s, q, "Stomp Syntax Error", description)
      case None => Dispatch(s, q, pick)
  }

  /** disconnectUser, and the connection leaves both tables. */
  function Disconnect(s: State, c: int): State
    requires c in s.byConn
  {
    var name := s.byConn[c];
    s.(users := s.users[name := UserOf(s, name).(connected := false, cid := -1, subs := map[])],
       byConn := s.byConn - {c}, handlers := s.handlers - {c})
  }

  datatype Result = Result(state: State, sent: seq<(int, Frame)>, threw: bool)

  function RequestOf(c: int, message: string): Option<Request> {
    match Parse(message)
    case None => None
    case Some(m) => Some(Request(c, m.kind, m.table, m.receipt, message[..|message| - 1]))
  }

  /** The reply goes to the sender, and a DISCONNECT that gets one ends the connection. */
  function Reply(s: State, c: int, kind: string, reply: Option<Frame>): Result {
    if reply == None then Result(s, [], false)
    else if c !in s.handlers then Result(s, [], true)
    else
      var sent := [(c, reply.value)];
      if kind != "DISCONNECT" then Result(s, sent, false)
      else if c !in s.byConn then Result(s, sent, true)
      else Result(Disconnect(s, c), sent, false)
  }

  function Conclude(q: Request, o: Outcome): Result {
    if o.threw then Result(o.state, o.deliveries, true)
    else
      var r := Reply(o.state, q.cid, q.kind, o.reply);
      r.(sent := o.deliveries + r.sent)
  }

  /** process: one message received on connection c. */
  function Process(s: State, c: int, message: string, pick: string): Result {
    match RequestOf(c, message)
    case None => Result(s, [], true)
    case Some(q) => Conclude(q, Handle(s, q, pick))
  }
}
