/** The client's protocol object: the commands it prints as frames and the frames it acts on. */
module ClientProtocol {
  import opened Wrappers
  import opened Text
  import opened Frames
  import opened Game
  import opened ClientUser
  import opened ClientFrames
  import opened Reports
  import Session
  import S = ClientStore

  /** What an ERROR is about: the rest of the line after its first `message:`. */
  function ErrorKind(msg: string): Option<string> {
    match Find(msg, "message:") case None => None case Some(i) => Some(UpTo(msg[i + 8..], "\n"))
  }

  /** The frames that make the client throw. */
  predicate Fails(session: ClientUser.Session, store: S.Store, msg: string) {
    var command := UpTo(msg, "\n");
    || Free(msg, "\n")
    || (command == "MESSAGE" && (Extract(msg) == None || S.Record(store, Extract(msg).value) == None))
    || (command == "RECEIPT" && Session.Told(session, msg) == None)
    || (command !in ["MESSAGE", "RECEIPT", "CONNECTED"] && ErrorKind(msg) == None)
  }

  /** The receipt of a logout, and an ERROR about the login. */
  predicate EndsSession(session: ClientUser.Session, msg: string) {
    var command := UpTo(msg, "\n");
    || (command == "RECEIPT" && Session.Told(session, msg).Some?
       && Session.Told(session, msg).value.0 == ClientUser.Logout)
    || (command !in ["MESSAGE", "RECEIPT", "CONNECTED"] && ErrorKind(msg) == Some("Login Error"))
  }

  /** The first line of what the server sends is the frame's type. */
  predicate Typed(msg: string, command: string) {
    Find(msg, "\n") == Some(|command|) && UpTo(msg, "\n") == command
  }

  lemma TypeIs(command: string, rest: string)
    requires '\n' !in command
    ensures Typed(command + "\n" + rest, command)
  {
    FindChar(command, '\n', rest);
    assert command + "\n" + rest == command + ['\n'] + rest;
    assert (command + "\n" + rest)[..|command|] == command;
  }

  lemma ConnectedTyped()
    ensures Typed(Render(Connected), "CONNECTED")
  {
    TypeIs("CONNECTED", "version:1.2\n\n");
    assert "CONNECTED" + "\n" + "version:1.2\n\n" == Render(Connected);
  }

  lemma ReceiptTyped(id: string)
    ensures Typed(Render(Receipt(id)), "RECEIPT")
  {
    TypeIs("RECEIPT", "receipt-id:" + id + "\n\n");
    assert "RECEIPT" + "\n" + ("receipt-id:" + id + "\n\n") == Render(Receipt(id));
  }

  lemma MessageTyped(subscription: string, id: string, destination: string, body: string)
    ensures Typed(Render(Message(subscription, id, destination, body)), "MESSAGE")
  {
    hide SUBSCRIPTION;
    hide MESSAGE_ID;
    hide DESTINATION;
    var rest := SUBSCRIPTION + subscription + "\n" + MESSAGE_ID + id + "\n" + DESTINATION + destination + "\n" + "\n"
        + body;
    TypeIs("MESSAGE", rest);
    assert "MESSAGE" + "\n" + rest == Render(Message(subscription, id, destination, body));
  }

  /** The text of an ERROR before its kind. */
  function BeforeKind(receipt: Option<string>): string {
    "ERROR\n" + if receipt.Some? then "receipt-id:" + receipt.value + "\n" else ""
  }

  lemma Regrouped(x: string, y: string, kind: string, head: string, original: string, mark: string, description: string)
    ensures x + y + kind + head + original + mark + description
            == x + y + (kind + (head + original + mark + description))
  {
  }

  /** The text of an ERROR after its kind. */
  function AfterKind(original: string, description: string): string {
    "\n\nThe message:\n-----\n" + original + "\n-----" + description
  }

  lemma ErrorParts(kind: string, original: string, description: string, receipt: Option<string>)
    ensures Render(Error(kind, original, description, receipt))
            == BeforeKind(receipt) + "message:" + (kind + AfterKind(original, description))
  {
    Regrouped(BeforeKind(receipt), "message:", kind, "\n\nThe message:\n-----\n", original, "\n-----", description);
  }

  lemma AfterStarts(original: string, description: string)
    ensures AfterKind(original, description) != "" && AfterKind(original, description)[0] == '\n'
  {
  }

  lemma ErrorTyped(receipt: Option<string>, rest: string)
    ensures Typed(BeforeKind(receipt) + rest, "ERROR")
  {
    var more := (if receipt.Some? then "receipt-id:" + receipt.value + "\n" else "") + rest;
    TypeIs("ERROR", more);
    assert "ERROR" + "\n" + more == BeforeKind(receipt) + rest;
  }

  lemma NothingBeforeKind(receipt: Option<string>)
    requires receipt.Some? ==> Free(receipt.value, "message:")
    ensures Free(BeforeKind(receipt), "message:") && Breaks(BeforeKind(receipt), "message:")
  {
    hide Free;
    hide Breaks;
    PadWords();
    if receipt.Some? {
      var r := receipt.value;
      FreePad("ERROR\n" + "receipt-id:", r, "message:");
      FreeThen("ERROR\n" + "receipt-id:" + r, '\n', "message:");
      LineBreaks("ERROR\n" + "receipt-id:" + r);
      Together("ERROR\n", "receipt-id:" + r, "\n");
      Together("ERROR\n", "receipt-id:", r);
    } else {
      FreeWithout("ERROR\n", "message:", 'm');
      LineBreaks("ERROR");
    }
  }

  lemma PadWords()
    ensures '\n' !in "message:" && "message:" != "" && 'm' in "message:" && "message:"[0] == 'm'
    ensures 'm' !in "ERROR\n" + "receipt-id:" && 'm' !in "ERROR\n" && "ERROR\n" == "ERROR" + ['\n']
    ensures "ERROR\n" + "" == "ERROR\n"
  {
  }

  lemma LineBreaks(x: string)
    ensures Breaks(x + ['\n'], "message:")
  {
    assert '\n' !in "message:";
  }

  /** What a client takes an ERROR to be about is what the server says it is about. */
  lemma KindIsRead(kind: string, original: string, description: string, receipt: Option<string>)
    requires '\n' !in kind && (receipt.Some? ==> Free(receipt.value, "message:"))
    ensures var msg := Render(Error(kind, original, description, receipt));
            Typed(msg, "ERROR") && ErrorKind(msg) == Some(kind)
  {
    hide *;
    var before, after := BeforeKind(receipt), AfterKind(original, description);
    ErrorParts(kind, original, description, receipt);
    NothingBeforeKind(receipt);
    AfterStarts(original, description);
    KindAfter(before, kind, after);
    ErrorTyped(receipt, "message:" + (kind + after));
    Together(before, "message:", kind + after);
  }

  lemma Together(x: string, y: string, z: string)
    ensures x + y + z == x + (y + z)
  {
  }

  lemma KindAfter(before: string, kind: string, rest: string)
    requires '\n' !in kind && Free(before, "message:") && Breaks(before, "message:") && rest != "" && rest[0] == '\n'
    ensures ErrorKind(before + "message:" + (kind + rest)) == Some(kind)
  {
    var after := kind + rest;
    var msg := before + "message:" + after;
    FindAtBreak(before, "message:", after);
    assert |"message:"| == 8;
    assert msg[|before| + 8..] == after;
    TypeIs(kind, rest[1..]);
    assert kind + "\n" + rest[1..] == after;
  }

  lemma ErrorActs(session: ClientUser.Session, store: S.Store,
                  kind: string, original: string, description: string, receipt: Option<string>)
    requires '\n' !in kind && (receipt.Some? ==> Free(receipt.value, "message:"))
    ensures var msg := Render(Error(kind, original, description, receipt));
            && !Fails(session, store, msg) && (EndsSession(session, msg) <==> kind == "Login Error")
            && UpTo(msg, "\n") == "ERROR"
  {
    hide ErrorKind;
    hide Render;
    hide UpTo;
    KindIsRead(kind, original, description, receipt);
  }

  lemma ConnectedActs(session: ClientUser.Session, store: S.Store)
    ensures var msg := Render(Connected);
            !Fails(session, store, msg) && !EndsSession(session, msg) && UpTo(msg, "\n") == "CONNECTED"
  {
    hide ErrorKind;
    hide Render;
    hide UpTo;
    ConnectedTyped();
  }

  /** Request r stands in the vectors. */
  predicate OnRecord(session: ClientUser.Session, r: nat) {
    && r < |session.receipts| && r < |session.actions|
    && (session.receipts[r] != ClientUser.Logout ==> 0 <= session.actions[r] < |session.subscriptions|)
  }

  lemma ReceiptActs(session: ClientUser.Session, store: S.Store, r: nat)
    requires OnRecord(session, r)
    ensures var msg := Render(Receipt(Dec(r)));
            && !Fails(session, store, msg) && (EndsSession(session, msg) <==> session.receipts[r] == ClientUser.Logout)
            && UpTo(msg, "\n") == "RECEIPT"
  {
    hide ErrorKind;
    hide Render;
    hide UpTo;
    hide Dec;
    hide ReceiptNumber;
    ReceiptTyped(Dec(r));
    ReceiptReadBack(r);
  }

  lemma MessageActs(session: ClientUser.Session, store: S.Store, f: Frame)
    requires f.Message?
    ensures var msg := Render(f);
            && (Fails(session, store, msg) <==> Extract(msg) == None || S.Record(store, Extract(msg).value) == None)
            && !EndsSession(session, msg) && UpTo(msg, "\n") == "MESSAGE"
  {
    hide ErrorKind;
    hide Render;
    hide UpTo;
    hide Extract;
    hide S.Record;
    MessageTyped(f.subscription, f.id, f.destination, f.body);
  }

  /** What each frame of the server does to the client. */
  lemma FramesAct(session: ClientUser.Session, store: S.Store, msg: string)
    ensures msg == Render(Connected) ==>
              !Fails(session, store, msg) && !EndsSession(session, msg) && UpTo(msg, "\n") == "CONNECTED"
    ensures forall kind, original, description, receipt ::
              && msg == Render(Error(kind, original, description, receipt))
              && '\n' !in kind && (receipt.Some? ==> Free(receipt.value, "message:")) ==>
              && !Fails(session, store, msg) && (EndsSession(session, msg) <==> kind == "Login Error")
              && UpTo(msg, "\n") == "ERROR"
    ensures forall r: nat :: OnRecord(session, r) && msg == Render(Receipt(Dec(r))) ==>
              && !Fails(session, store, msg) && UpTo(msg, "\n") == "RECEIPT"
              && (EndsSession(session, msg) <==> session.receipts[r] == ClientUser.Logout)
    ensures forall f: Frame :: f.Message? && msg == Render(f) ==>
              && (Fails(session, store, msg) <==> Extract(msg) == None || S.Record(store, Extract(msg).value) == None)
              && !EndsSession(session, msg) && UpTo(msg, "\n") == "MESSAGE"
  {
    hide Fails;
    hide EndsSession;
    hide Render;
    hide UpTo;
    hide Extract;
    hide S.Record;
    hide Dec;
    hide Free;
    ConnectedActs(session, store);
    forall kind, original, description, receipt
      | && msg == Render(Error(kind, original, description, receipt))
        && '\n' !in kind && (receipt.Some? ==> Free(receipt.value, "message:"))
      ensures !Fails(session, store, msg) && (EndsSession(session, msg) <==> kind == "Login Error")
      ensures UpTo(msg, "\n") == "ERROR"
    {
      ErrorActs(session, store, kind, original, description, receipt);
    }
    forall r: nat | OnRecord(session, r) && msg == Render(Receipt(Dec(r)))
      ensures !Fails(session, store, msg) && UpTo(msg, "\n") == "RECEIPT"
      ensures EndsSession(session, msg) <==> session.receipts[r] == ClientUser.Logout
    {
      ReceiptActs(session, store, r);
    }
    forall f: Frame | f.Message? && msg == Render(f)
      ensures Fails(session, store, msg) <==> Extract(msg) == None || S.Record(store, Extract(msg).value) == None
      ensures !EndsSession(session, msg) && UpTo(msg, "\n") == "MESSAGE"
    {
      MessageActs(session, store, f);
    }
  }

  /** What a frame can change at the client. */
  datatype Client = Client(open: bool, connected: bool, session: ClientUser.Session, store: S.Store)

  /** Logged out, the channel closed and everything forgotten. */
  const LoggedOut := Client(false, false, NewSession, map[])

  /** `open` says whether the channel to the server is open. */
  class StompProtocol {
    const user: User
    var open: bool
    var sent: seq<string>

    constructor ()
      ensures user.Valid() && user.store == map[] && user.session == NewSession && !user.connected
      ensures sent == [] && !open && fresh(user)
    {
      user := new User();
      open, sent := false, [];
    }

    ghost function View(): Client
      reads this, user
    {
      Client(open, user.connected, user.session, user.store)
    }

    /** join: a new place in each vector, and both places in the frame. */
    method Join(dest: string)
      modifies this`sent, user`session
      ensures var before := old(user.session);
              var i, r := |before.subscriptions|, |before.receipts|;
              && user.session == ClientUser.Session(before.subscriptions + [dest],
                 before.receipts + [ClientUser.Join], before.actions + [i])
              && sent == old(sent) + [SubscribeText(dest, Dec(i), Dec(r))]
    {
      hide SubscribeText;
      var id := user.AddNewDest(dest);
      StoiOfDec(|old(user.session).subscriptions|);
      var receipt := user.ReceiptGenerator(ClientUser.Join, Stoi(id).value);
      sent := sent + [SubscribeText(dest, id, receipt)];
    }

    /** exit: the first place of the game; nothing is sent for a game that was never joined. */
    method Exit(dest: string)
      modifies this`sent, user`session
      ensures var before := old(user.session);
              var i, r := FirstIndex(before.subscriptions, dest), |before.receipts|;
              if i == |before.subscriptions| then user.session == before && sent == old(sent)
              else
                && user.session == before.(receipts := before.receipts + [ClientUser.Exit],
                   actions := before.actions + [i])
                && sent == old(sent) + [UnsubscribeText(Dec(i), Dec(r))]
    {
      hide UnsubscribeText;
      ghost var i := FirstIndex(user.session.subscriptions, dest);
      var id := user.GetSubIdFromGameName(dest);
      if id != "" {
        StoiOfDec(i);
        var receipt := user.ReceiptGenerator(ClientUser.Exit, Stoi(id).value);
        sent := sent + [UnsubscribeText(id, receipt)];
      }
    }

    method Logout()
      modifies this`sent, user`session
      ensures var before := old(user.session);
              && user.session == before.(receipts := before.receipts + [ClientUser.Logout],
                 actions := before.actions + [-1])
              && sent == old(sent) + [DisconnectText(Dec(|before.receipts|))]
    {
      var receipt := user.ReceiptGenerator(ClientUser.Logout, -1);
      sent := sent + [DisconnectText(receipt)];
    }

    /** The client closes its channel and forgets its session. */
    method EndSession()
      modifies this`open, user
      ensures !open && user.Valid() && user.store == map[] && user.session == NewSession && !user.connected
    {
      open := false;
      user.Disconnect();
    }

    /** A MESSAGE is taken apart and recorded. */
    method OnMessage(msg: string) returns (threw: bool)
      requires user.Valid()
      modifies user`games, user`store, user`heap, user.heap
      ensures user.Valid() && fresh(user.heap - old(user.heap))
      ensures threw <==> Extract(msg) == None || S.Record(old(user.store), Extract(msg).value) == None
      ensures user.store == match Extract(msg)
                            case None => old(user.store)
                            case Some(n) =>
                              match S.Record(old(user.store), n)
                              case None => S.RecordFailed(old(user.store), n)
                              case Some(store) => store
    {
      hide S.Record;
      hide S.RecordFailed;
      hide Grab;
      hide GrabUpdates;
      hide GrabDescription;
      var line := Find(msg, "\n");
      if line == None {
        return true;
      }
      var thismsg := msg[line.value..];
      var game, username := Grab(thismsg, "/"), Grab(thismsg, USER);
      var eventName, time := Grab(thismsg, EVENT), Grab(thismsg, TIME);
      var updates, description := GrabUpdates(thismsg), GrabDescription(thismsg);
      if game == None || username == None || eventName == None || time == None || updates == None
          || description == None {
        return true;
      }
      threw := user.Update(game.value, username.value, time.value, eventName.value, updates.value, description.value);
    }

    /** A RECEIPT names the command it answers; a logout's ends the session. */
    method OnReceipt(msg: string) returns (told: Option<(Command, string)>)
      requires user.Valid()
      modifies this`open, user
      ensures user.Valid() && told == Session.Told(old(user.session), msg)
      ensures if told.Some? && told.value.0 == ClientUser.Logout
              then !open && !user.connected && user.session == NewSession && user.store == map[]
              else open == old(open) && unchanged(user)
    {
      hide ReceiptNumber;
      told := Session.Told(user.session, msg);
      if told.Some? && told.value.0 == ClientUser.Logout {
        EndSession();
      }
    }

    /**
     One frame from the server. An exception ends the listener and with it the client; so may a receipt
     number that was never given out, for which the vectors are read out of their bounds.
     */
    method StompToAction(msg: string) returns (threw: bool)
      requires user.Valid()
      modifies this`open, user, user.heap
      ensures threw <==> Fails(old(user.session), old(user.store), msg)
      ensures msg == Render(Connected) ==> !threw && View() == old(View()).(connected := true)
      ensures forall kind, original, description, receipt ::
                && msg == Render(Error(kind, original, description, receipt))
                && '\n' !in kind && (receipt.Some? ==> Free(receipt.value, "message:")) ==>
                !threw && View() == if kind == "Login Error" then LoggedOut else old(View())
      ensures forall r: nat :: OnRecord(old(user.session), r) && msg == Render(Receipt(Dec(r))) ==>
                !threw && View() == if old(user.session).receipts[r] == ClientUser.Logout
                then LoggedOut else old(View())
      ensures forall f: Frame :: f.Message? && msg == Render(f) ==>
                && (threw <==> Extract(msg) == None || S.Record(old(user.store), Extract(msg).value) == None)
                && (!threw ==> View() == old(View()).(store := S.Record(old(user.store), Extract(msg).value).value))
      ensures user.Valid()
      ensures EndsSession(old(user.session), msg) && !threw ==>
                !open && !user.connected && user.session == NewSession && user.store == map[]
      ensures !EndsSession(old(user.session), msg) && !threw ==>
                && open == old(open) && user.session == old(user.session)
                && user.connected == (UpTo(msg, "\n") == "CONNECTED" || old(user.connected))
                && (if UpTo(msg, "\n") == "MESSAGE"
                    then S.Record(old(user.store), Extract(msg).value) == Some(user.store)
                    else user.store == old(user.store))
    {
      hide Session.Told;
      hide Extract;
      hide S.Record;
      hide S.RecordFailed;
      hide ErrorKind;
      FramesAct(user.session, user.store, msg);
      hide Render;
      var command := UpTo(msg, "\n");
      if Find(msg, "\n") == None {
        return true;
      }
      if command == "CONNECTED" {
        user.Connect();
        threw := false;
      } else if command == "RECEIPT" {
        var told := OnReceipt(msg);
        threw := told == None;
      } else if command == "MESSAGE" {
        threw := OnMessage(msg);
      } else {
        var error := ErrorKind(msg);
        threw := error == None;
        if error == Some("Login Error") {
          EndSession();
        }
      }
    }
  }
}
