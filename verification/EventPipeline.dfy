/** An event from one client's file to another client's summary. */
module EventPipeline {
  import opened Wrappers
  import opened Text
  import opened OrderedMap
  import opened Frames
  import opened Game
  import opened ClientStore
  import opened Reports
  import opened ReportReading
  import B = Broker
  import I = BrokerInvariant
  import D = BrokerDelivery
  import C = Codec
  import Wire
  import ClientUser
  import opened SummaryReading
  import Session

  /** The SEND frame as the server receives it. */
  function ReportTable(user: string, game: string, e: Event): Table {
    D.FrameTable("SEND", map["destination" := "/" + game], Body(user, e))
  }

  lemma SendPrinted(user: string, game: string, e: Event)
    ensures Print("SEND", [("destination", "/" + game)], Body(user, e)) == SendText(user, game, e)
    ensures SendText(user, game, e) != ""
  {
    hide Body;
    var headers := [("destination", "/" + game)];
    assert PrintHeaders(headers[1..]) == "";
    assert PrintHeaders(headers) == "destination" + ":" + ("/" + game) + "\n";
  }

  lemma ReportReceived(user: string, game: string, e: Event)
    requires '\n' !in game
    ensures Parse(SendText(user, game, e)) == Some(Received("SEND", ReportTable(user, game, e), false))
    ensures SendText(user, game, e) != ""
  {
    hide Find;
    hide FindFrom;
    hide Body;
    hide Print;
    hide PrintHeaders;
    hide SendText;
    hide Parse;
    SendPrinted(user, game, e);
    PrintedIsReceived("SEND", [("destination", "/" + game)], Body(user, e));
  }

  lemma ReportAccepted(user: string, game: string, e: Event)
    ensures B.Objection("SEND", ReportTable(user, game, e), false) == None
    ensures Get(ReportTable(user, game, e), "destination") == "/" + game
    ensures Get(ReportTable(user, game, e), "game_updates") == Body(user, e)
  {
    assert Body(user, e) != "" by {
      assert USER != "";
      hide UpdatesText;
    }
    hide Body;
    hide B.Objection;
    var headers := map["destination" := "/" + game];
    assert D.Rest(headers) == {"destination"} == D.Wanted("SEND");
    D.ValidatorsExact("SEND", headers, Body(user, e));
  }

  /** The frame every subscriber of the game gets. */
  function Relayed(user: string, game: string, e: Event, pick: string, id: nat): Frame {
    Message(pick, Dec(id), "/" + game, Body(user, e))
  }

  /**
   A report's bytes, whatever the chunks in which they come, are handed to process as exactly the text
   that was printed if and only if nothing in the report contains U+0000.
   */
  lemma ReportArrivesExactly(user: string, game: string, e: Event, past: seq<string>, up: seq<seq<C.Byte>>)
    requires C.Concat(up) == C.Encode(SendText(user, game, e))
    ensures C.FeedChunks(C.Decoded([], past), up).frames == past + [SendText(user, game, e)] <==> Carried(game, user, e)
  {
    SendIsWhole(user, game, e);
    hide SendText;
    hide Carried;
    C.ArrivesExactly(past, SendText(user, game, e), up);
  }

  lemma NumericIsWhole(s: string)
    requires Numeric(s)
    ensures Wire.Whole(s)
  {
    assert !IsDigit('\0');
  }

  lemma SlashIsWhole(game: string)
    ensures Wire.Whole("/" + game) <==> '\0' !in game
  {
  }

  /** And so is the MESSAGE that relays it, on the way to the receiver. */
  lemma RelayArrivesExactly(user: string, game: string, e: Event, pick: string, id: nat,
                            got: seq<string>, down: seq<seq<C.Byte>>)
    requires Numeric(pick) && C.Concat(down) == C.Encode(Render(Relayed(user, game, e, pick, id)))
    ensures C.FeedChunks(C.Decoded([], got), down).frames == got + [Render(Relayed(user, game, e, pick, id))]
            <==> Carried(game, user, e)
  {
    BodyIsWhole(user, e);
    Wire.RenderedIsWhole(Relayed(user, game, e, pick, id));
    Wire.DecIsWhole(id);
    NumericIsWhole(pick);
    SlashIsWhole(game);
    hide Render;
    hide Body;
    hide Dec;
    hide WholeEntries;
    C.ArrivesExactly(got, Render(Relayed(user, game, e, pick, id)), down);
  }

  /**
   U+0000 in a description cuts the report in two: process is handed a report that ends there, without the
   last line break, and then a text without headers, on which it throws.
   */
  lemma NulCutsReport(s: B.State, c: int, user: string, game: string, e: Event, a: string, b: string, pick: string,
                      past: seq<string>, up: seq<seq<C.Byte>>)
    requires e.description == a + "\0" + b && Carried(game, user, e.(description := a)) && '\0' !in b && '\n' !in b
    requires C.Concat(up) == C.Encode(SendText(user, game, e))
    ensures var cut := SendText(user, game, e.(description := a));
            && cut[|cut| - 1] == '\n'
            && C.FeedChunks(C.Decoded([], past), up).frames == past + [cut[..|cut| - 1], b + "\n"]
    ensures B.Process(s, c, b + "\n", pick) == B.Result(s, [], true)
  {
    var cut := SendText(user, game, e.(description := a));
    var first, second := cut[..|cut| - 1], b + "\n";
    hide SendText;
    hide Carried;
    SendIsWhole(user, game, e.(description := a));
    CutText(user, game, e, a, b);
    C.EncodeTwo(first, second);
    C.ArriveExactly(past, [first, second], up);
    LineThrows(s, c, b, pick);
  }

  /** process finds no blank line in a text of one line. */
  lemma LineThrows(s: B.State, c: int, b: string, pick: string)
    requires '\n' !in b
    ensures B.Process(s, c, b + "\n", pick) == B.Result(s, [], true)
  {
    hide B.Handle;
    FindChar(b, '\n', "");
    assert b + ['\n'] + "" == b + "\n";
    assert (b + "\n")[|b| + 1..] == "";
  }

  /** Where U+0000 stands in the report's text. */
  lemma CutText(user: string, game: string, e: Event, a: string, b: string)
    requires e.description == a + "\0" + b
    ensures var cut := SendText(user, game, e.(description := a));
            && cut != "" && cut[|cut| - 1] == '\n'
            && SendText(user, game, e) == cut[..|cut| - 1] + "\0" + (b + "\n")
  {
    var t := "SEND\ndestination:/" + game + "\n\n" + Field(USER, user) + Field(EVENT, e.name)
             + Field(TIME, PrintInt(e.time)) + Field(GENERAL, "") + Lines(e.general) + Field(TEAM_A, "") + Lines(e.a)
             + Field(TEAM_B, "") + Lines(e.b) + "\n";
    PiecesTogether(user, game, e);
    PiecesTogether(user, game, e.(description := a));
    hide SendText;
    hide DESCRIPTION;
    assert Field(DESCRIPTION, e.description) == DESCRIPTION + a + "\0" + (b + "\n");
    var cut := SendText(user, game, e.(description := a));
    assert cut == t + Field(DESCRIPTION, a);
    assert cut[..|cut| - 1] == t + (DESCRIPTION + a);
  }

  /**
   A subscribed user's report reaches every connection once for each of its user's subscriptions to
   the game, as one MESSAGE with the report's body; nothing else is sent and nobody is thrown at.
   */
  lemma ReportIsRelayed(s: B.State, c: int, user: string, game: string, e: Event, pick: string, d: int,
                        past: seq<string>, up: seq<seq<C.Byte>>)
    requires I.Inv(s) && c in s.byConn && '\n' !in game && Carried(game, user, e)
    requires "/" + game in B.UserAt(s, c).subs.Values
    requires C.Concat(up) == C.Encode(SendText(user, game, e))
    ensures var frames := C.FeedChunks(C.Decoded([], past), up).frames;
            && |frames| == |past| + 1
            && var r, f := B.Process(s, c, frames[|past|], pick), Relayed(user, game, e, pick, s.messageId);
               && !r.threw && r.state.messageId == s.messageId + 1
               && multiset(r.sent)[(d, f)] == |B.IdsOf(B.UserAt(s, d).subs, "/" + game)|
               && forall x :: x in r.sent ==> x.1 == f
  {
    hide SendText;
    hide Carried;
    hide I.Inv;
    hide B.IdsOf;
    hide B.Process;
    hide B.UserAt;
    ReportArrivesExactly(user, game, e, past, up);
    TextIsRelayed(s, c, user, game, e, pick, d);
  }

  lemma TextIsRelayed(s: B.State, c: int, user: string, game: string, e: Event, pick: string, d: int)
    requires I.Inv(s) && c in s.byConn && '\n' !in game
    requires "/" + game in B.UserAt(s, c).subs.Values
    ensures var r, f := B.Process(s, c, SendText(user, game, e), pick), Relayed(user, game, e, pick, s.messageId);
            && !r.threw && r.state.messageId == s.messageId + 1
            && multiset(r.sent)[(d, f)] == |B.IdsOf(B.UserAt(s, d).subs, "/" + game)|
            && forall x :: x in r.sent ==> x.1 == f
  {
    hide B.Login;
    hide SendText;
    hide Body;
    hide ReportTable;
    hide B.Objection;
    hide I.Inv;
    hide B.IdsOf;
    hide Parse;
    hide B.Send;
    ReportReceived(user, game, e);
    ReportAccepted(user, game, e);
    var text := SendText(user, game, e);
    var q := B.Request(c, "SEND", ReportTable(user, game, e), false, text[..|text| - 1]);
    assert B.RequestOf(c, text) == Some(q);
    D.ExactDelivery(s, q, pick, d);
    D.SendReplies(s, q, pick);
    assert B.Handle(s, q, pick) == B.Send(s, q, pick);
    var o := B.Send(s, q, pick);
    assert o.reply == None && !o.threw;
    assert B.Process(s, c, text, pick) == B.Conclude(q, o);
    assert o.deliveries + [] == o.deliveries;
  }

  function Known(store: Store, game: string, user: string): Stats {
    match Lookup(store, game, user) case None => NoStats case Some(g) => g
  }

  /** What an event makes of a reporter's statistics: its three maps laid over the old ones, and one report more,
   which holds its time, its name and its description. */
  ghost predicate LaidOver(g: Stats, e: Event, g': Stats) {
    && ToMap(g'.general) == ToMap(g.general) + ToMap(e.general)
    && ToMap(g'.a) == ToMap(g.a) + ToMap(e.a)
    && ToMap(g'.b) == ToMap(g.b) + ToMap(e.b)
    && exists time :: Decimal(time, e.time)
                      && g'.updates == g.updates + [time + "-" + e.name + ":\n\n" + (e.description + "\n")]
  }

  /**
   Reading a relayed report, as it arrives, lays the event over what is known of its game and reporter,
   and of nothing else.
   */
  lemma ReportIsRead(store: Store, user: string, game: string, e: Event, pick: string, id: nat,
                     got: seq<string>, down: seq<seq<C.Byte>>, otherGame: string, otherUser: string)
    requires Readable(game, user, e) && Numeric(pick)
    requires Ordered(e.general) && Ordered(e.a) && Ordered(e.b) && StatsSound(Known(store, Trim(game), user))
    requires C.Concat(down) == C.Encode(Render(Relayed(user, game, e, pick, id)))
    ensures var frames := C.FeedChunks(C.Decoded([], got), down).frames;
            && |frames| == |got| + 1
            && var note := Extract(frames[|got|]);
               && note.Some? && Record(store, note.value).Some?
               && var store' := Record(store, note.value).value;
                  && LaidOver(Known(store, Trim(game), user), e, Known(store', Trim(game), user))
                  && StatsSound(Known(store', Trim(game), user))
                  && ((otherGame, otherUser) != (Trim(game), user) ==>
                       Lookup(store', otherGame, otherUser) == Lookup(store, otherGame, otherUser))
  {
    hide Render;
    hide Extract;
    hide Record;
    hide LaidOver;
    hide Relayed;
    hide Carried;
    RelayArrivesExactly(user, game, e, pick, id, got, down);
    TextIsRead(store, user, game, e, pick, id, otherGame, otherUser);
  }

  lemma TextIsRead(store: Store, user: string, game: string, e: Event, pick: string, id: nat,
                   otherGame: string, otherUser: string)
    requires Readable(game, user, e) && Numeric(pick)
    requires Ordered(e.general) && Ordered(e.a) && Ordered(e.b) && StatsSound(Known(store, Trim(game), user))
    ensures var note := Extract(Render(Relayed(user, game, e, pick, id)));
            && note.Some? && Record(store, note.value).Some?
            && var store' := Record(store, note.value).value;
               && LaidOver(Known(store, Trim(game), user), e, Known(store', Trim(game), user))
               && StatsSound(Known(store', Trim(game), user))
               && ((otherGame, otherUser) != (Trim(game), user) ==>
                    Lookup(store', otherGame, otherUser) == Lookup(store, otherGame, otherUser))
  {
    assert Numeric(Dec(id));
    ExtractsReport(pick, Dec(id), game, user, e);
    var g := Known(store, Trim(game), user);
    UpdateReads(g, e);
    UpdatedSound(g, PrintInt(e.time), e.name, UpdatesText(e), e.description + "\n");
    hide Lined;
    hide Render;
    hide Body;
    hide Extract;
    hide Clear;
    hide TeamsClear;
    hide Plain;
    hide Split;
    hide ReadLines;
    hide UpdatesText;
    PutAllMeans(g.general, e.general);
    PutAllMeans(g.a, e.a);
    PutAllMeans(g.b, e.b);
    hide PutAll;
    hide Ordered;
    hide ToMap;
    var n := Note(game, user, PrintInt(e.time), e.name, UpdatesText(e), e.description + "\n");
    assert StatsOf(At(store, Trim(game)), user) == g;
    hide Decimal;
    PrintedIsDecimal(e.time);
    RecordIsLocal(store, n, Trim(game), user);
    RecordIsLocal(store, n, otherGame, otherUser);
  }

  lemma NamesAreParts(game: string, c: char)
    requires c !in game
    ensures c !in ClientUser.TeamA(Trim(game)) && c !in ClientUser.TeamB(Trim(game))
  {
    TrimLeftIsPart(game);
    TrimRightIsPart(TrimLeft(game));
    hide FindFrom;
    hide TrimLeft;
    hide TrimRight;
  }

  /**
   What an answer tells of an event: it is a summary with the names of the game's two teams in its title. Its
   three sections read back to the statistics g' if and only if no statistic looks like a team's header; and
   without a colon in the game they read back to the old statistics with the event's laid over them, each
   team's under its own header.
   */
  ghost predicate Tells(answer: string, game: string, g: Stats, e: Event, g': Stats) {
    var a, b := ClientUser.TeamA(Trim(game)), ClientUser.TeamB(Trim(game));
    var shown := ReadSummary(answer, a, b);
    && shown.title == a + " vs " + b
    && (shown.general == g'.general && shown.a == g'.a && shown.b == g'.b <==> HeadersApart(a, b, g'))
    && (':' !in game ==>
          && ToMap(shown.general) == ToMap(g.general) + ToMap(e.general)
          && ToMap(shown.a) == ToMap(g.a) + ToMap(e.a) && ToMap(shown.b) == ToMap(g.b) + ToMap(e.b)
          && shown.reports == LinesOf(SummaryReading.Reports(g'.updates)))
  }

  /** What a client answers once it knows an event laid over old statistics. */
  lemma SummaryTells(store: Store, game: string, user: string, g: Stats, e: Event)
    requires LaidOver(g, e, Known(store, Trim(game), user)) && StatsSound(Known(store, Trim(game), user))
    requires '\n' !in game
    ensures Tells(ClientUser.Answer(store, game, user), game, g, e, Known(store, Trim(game), user))
  {
    hide Trim;
    hide Summary;
    hide ToMap;
    hide Lined;
    hide Ordered;
    hide ReadSummary;
    hide HeadersApart;
    hide ClientUser.TeamA;
    hide ClientUser.TeamB;
    var g' := Known(store, Trim(game), user);
    assert g'.updates != [];
    var a, b := ClientUser.TeamA(Trim(game)), ClientUser.TeamB(Trim(game));
    NamesAreParts(game, '\n');
    SummaryReadsExactly(a, b, g');
    if ':' !in game {
      NamesAreParts(game, ':');
      WithoutColonsApart(a, b, g');
    }
  }

  /** What has been taken in of an event: the frame that arrived, the statistics it led to and the answer they give. */
  ghost predicate Told(store: Store, user: string, game: string, e: Event, frame: string) {
    var note := Extract(frame);
    && note.Some? && Record(store, note.value).Some?
    && var store', g := Record(store, note.value).value, Known(store, Trim(game), user);
       && LaidOver(g, e, Known(store', Trim(game), user))
       && Tells(ClientUser.Answer(store', game, user), game, g, e, Known(store', Trim(game), user))
  }

  /**
   From one client's event to any subscriber's summary: the sender's bytes, in any chunks, are one frame for
   the server; each of the messages this sends goes to a subscriber and is, in any chunks, one frame there.
   */
  lemma EndToEnd(s: B.State, c: int, user: string, game: string, e: Event, pick: string,
                 past: seq<string>, up: seq<seq<C.Byte>>,
                 x: (int, Frame), got: seq<string>, down: seq<seq<C.Byte>>, store: Store)
    requires I.Inv(s) && c in s.byConn && "/" + game in B.UserAt(s, c).subs.Values
    requires Readable(game, user, e) && Numeric(pick)
    requires Ordered(e.general) && Ordered(e.a) && Ordered(e.b) && StatsSound(Known(store, Trim(game), user))
    requires C.Concat(up) == C.Encode(SendText(user, game, e)) && C.Concat(down) == C.Encode(Render(x.1))
    requires x in B.Process(s, c, SendText(user, game, e), pick).sent
    ensures C.FeedChunks(C.Decoded([], past), up).frames == past + [SendText(user, game, e)]
    ensures "/" + game in B.UserAt(s, x.0).subs.Values
    ensures var frames := C.FeedChunks(C.Decoded([], got), down).frames;
            |frames| == |got| + 1 && Told(store, user, game, e, frames[|got|])
  {
    hide Render;
    hide Extract;
    hide Record;
    hide LaidOver;
    hide Relayed;
    hide Carried;
    hide B.Process;
    hide SendText;
    hide I.Inv;
    hide Known;
    hide ClientUser.Answer;
    ReportArrivesExactly(user, game, e, past, up);
    TextIsRelayed(s, c, user, game, e, pick, x.0);
    ReportIsRead(store, user, game, e, pick, s.messageId, got, down, Trim(game), user);
    assert '\n' !in game;
    hide Readable;
    hide Tells;
    hide StatsSound;
    var note := Extract(C.FeedChunks(C.Decoded([], got), down).frames[|got|]);
    SummaryTells(Record(store, note.value).value, game, user, Known(store, Trim(game), user), e);
    assert multiset(B.Process(s, c, SendText(user, game, e), pick).sent)[x] > 0;
    var id :| id in B.IdsOf(B.UserAt(s, x.0).subs, "/" + game);
  }

  /** The ids of a session are numeric, so the sender's id that the server picks is one too. */
  lemma PickIsNumeric(y: Session.Sys, destination: string, pick: string)
    requires Session.Ok(y) && y.c in y.server.byConn && B.Picks(B.UserAt(y.server, y.c).subs, destination, pick)
    ensures Numeric(pick)
  {
    hide I.Inv;
    hide B.UserAt;
    hide Session.VectorsOk;
    hide Session.QueueOk;
    hide Session.AnswersOk;
  }

  /** What is known after any MESSAGEs is in key order. */
  lemma KnownOrdered(notes: seq<Note>, game: string, user: string)
    requires forall n :: n in notes ==> !Free(n.updates, TEAM_B)
    ensures Replay(map[], notes).Some? && StatsSound(Known(Replay(map[], notes).value, game, user))
  {
    KnownIsSound(notes, game, user);
    NoStatsSound();
  }

  /**
   The whole way: a client whose session has gone on in any way at all has a report next on its way. The
   bytes on their way are, in any chunks, the frames the client sent; the server takes the report; and
   whoever gets one of the messages this sends, in any chunks and whatever MESSAGEs it has had before, then
   knows the event laid over what it knew of that game and reporter, and shows the summary of that.
   */
  lemma FromFileToSummary(y: Session.Sys, steps: seq<Session.Step>, user: string, game: string, e: Event, pick: string,
                          past: seq<string>, up: seq<seq<C.Byte>>,
                          x: (int, Frame), got: seq<string>, down: seq<seq<C.Byte>>, notes: seq<Note>)
    requires Session.Begins(y) && Readable(game, user, e) && Ordered(e.general) && Ordered(e.a) && Ordered(e.b)
    requires var y' := Session.Run(y, steps);
             && y'.toServer != [] && y'.toServer[0].text == SendText(user, game, e)
             && B.Picks(B.UserAt(y'.server, y'.c).subs, "/" + game, pick)
             && x in B.Process(y'.server, y'.c, y'.toServer[0].text, pick).sent
             && C.Concat(up) == C.EncodeAll(Session.Texts(y'.toServer)) && C.Concat(down) == C.Encode(Render(x.1))
    requires forall n :: n in notes ==> !Free(n.updates, TEAM_B)
    ensures past + [SendText(user, game, e)] <= C.FeedChunks(C.Decoded([], past), up).frames
    ensures "/" + game in B.UserAt(Session.Run(y, steps).server, x.0).subs.Values
    ensures var store, frames := Replay(map[], notes), C.FeedChunks(C.Decoded([], got), down).frames;
            store.Some? && |frames| == |got| + 1 && Told(store.value, user, game, e, frames[|got|])
  {
    hide Readable;
    hide Render;
    hide Told;
    hide SendText;
    hide Known;
    hide Session.Run;
    hide I.Inv;
    hide B.Process;
    hide Session.VectorsOk;
    hide Session.QueueOk;
    hide Session.AnswersOk;
    hide Session.SubsOk;
    hide B.UserAt;
    hide StatsSound;
    hide Ordered;
    Session.BeginsOk(y);
    Session.RunKeepsOk(y, steps);
    Session.RequestsArrive(y, steps, past, up);
    var y' := Session.Run(y, steps);
    PickIsNumeric(y', "/" + game, pick);
    KnownOrdered(notes, Trim(game), user);
    C.EncodeOne(SendText(user, game, e));
    assert C.Concat([C.Encode(SendText(user, game, e))]) == C.Encode(SendText(user, game, e)) by {
      OneChunk(C.Encode(SendText(user, game, e)));
    }
    EndToEnd(y'.server, y'.c, user, game, e, pick, past, [C.Encode(SendText(user, game, e))],
             x, got, down, Replay(map[], notes).value);
  }

  lemma OneChunk(x: seq<C.Byte>)
    ensures C.Concat([x]) == x
  {
    assert C.Concat([x][1..]) == [];
    assert x + [] == x;
  }

  /**
   An event whose name starts with the time's marker is read with the rest of its name as its time,
   and so, unless that happens to be the time, wrongly.
   */
  lemma NameSpoilsTime(subscription: string, id: string, game: string, user: string, e: Event, v: string)
    requires Numeric(subscription) && Numeric(id) && Free(game, TIME) && Free(user, TIME)
    requires e.name == TIME + v && '\n' !in v && v != PrintInt(e.time)
    ensures var note := Extract(Render(Message(subscription, id, "/" + game, Body(user, e))));
            note.Some? && note.value.time == v && !Decimal(note.value.time, e.time)
    ensures !Readable(game, user, e)
  {
    hide Decimal;
    hide PrintInt;
    var head := Head(subscription, id, game);
    IntIsDecimal(v, e.time);
    SomeNoteIsTaken(subscription, id, game, user, e);
    MessageText(subscription, id, game, Body(user, e));
    HeadMarkers(subscription, id, game);
    FieldMarkers();
    UserApart();
    EventApart();
    Stages(head, user, e);
    OneMoreField(head, USER, user, TIME);
    FreeTogether(UpToEvent(head, user), EVENT, TIME);
    assert Occurs(TIME + v, TIME, 0);
    assert !Free(e.name, TIME);
    var rest := Field(TIME, PrintInt(e.time)) + (Field(GENERAL, "")
        + (UpdatesText(e) + Field(DESCRIPTION, e.description)));
    var x := UpToEvent(head, user) + EVENT;
    NameFieldSplits(UpToEvent(head, user), v, rest);
    hide USER;
    hide EVENT;
    hide TIME;
    hide GENERAL;
    hide DESCRIPTION;
    hide Body;
    hide Head;
    hide Render;
    hide Find;
    hide UpToEvent;
    hide UpdatesText;
    FieldGrabbed(x, TIME, v, rest);
  }

  lemma NameFieldSplits(x: string, v: string, rest: string)
    ensures x + (Field(EVENT, TIME + v) + rest) == (x + EVENT) + (Field(TIME, v) + rest)
  {
    hide EVENT;
    hide TIME;
  }
}
