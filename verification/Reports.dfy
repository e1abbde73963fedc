/** A game event as text: how a client prints it, what another client takes out of it, and when that is the same. */
module Reports {
  import opened Wrappers
  import opened Text
  import opened OrderedMap
  import opened Game
  import opened ClientStore
  import opened Frames

  datatype Event = Event(name: string, time: int, general: seq<Entry>, a: seq<Entry>, b: seq<Entry>,
                         description: string)

  const USER := "user:"
  const EVENT := "event name:"
  const TIME := "time:"
  const GENERAL := "general game updates:"
  const DESCRIPTION := "description:"

  /** The margin of an entry's line. */
  const PAD := "     "

  function PrintInt(n: int): string {
    if n < 0 then "-" + Dec(-n) else Dec(n)
  }

  lemma PrintedIsDecimal(n: int)
    ensures Decimal(PrintInt(n), n)
  {
    hide Dec;
    hide Stoi;
    var m := if n < 0 then -n else n;
    DecIsPlain(m);
    ValueOfDec(m);
    StoiOfPlain(Dec(m));
    assert ("-" + Dec(m))[1..] == Dec(m);
  }

  lemma DecimalIsPrinted(s: string, n: int)
    requires Decimal(s, n)
    ensures s == PrintInt(n)
  {
    hide Dec;
    hide Stoi;
    hide Value;
    var d := if n < 0 then s[1..] else s;
    PlainIsDec(d);
    StoiOfPlain(d);
    if n < 0 {
      assert s == "-" + d;
    }
  }

  /** What is printed of a number is its decimal notation, and nothing else is. */
  lemma IntIsDecimal(s: string, n: int)
    ensures Decimal(s, n) <==> s == PrintInt(n)
  {
    hide PrintInt;
    hide Decimal;
    PrintedIsDecimal(n);
    if Decimal(s, n) {
      DecimalIsPrinted(s, n);
    }
  }

  function Line(x: Entry): string {
    x.0 + ":" + x.1
  }

  function Lines(e: seq<Entry>): string {
    if e == [] then "" else PAD + Line(e[0]) + "\n" + Lines(e[1..])
  }

  function Field(marker: string, value: string): string {
    marker + value + "\n"
  }

  function UpdatesText(e: Event): string {
    Lines(e.general) + (Field(TEAM_A, "") + (Lines(e.a) + (Field(TEAM_B, "") + (Lines(e.b) + "\n"))))
  }

  /** The body of the frame that reports an event. */
  function Body(user: string, e: Event): string {
    Field(USER, user) + (Field(EVENT, e.name) + (Field(TIME, PrintInt(e.time)) + (Field(GENERAL, "")
    + (UpdatesText(e) + Field(DESCRIPTION, e.description)))))
  }

  function SendText(user: string, game: string, e: Event): string {
    "SEND\ndestination:/" + game + "\n\n" + Body(user, e)
  }

  /** The loop over the entries of a map. */
  method PrintLines(e: seq<Entry>) returns (s: string)
    ensures s == Lines(e)
  {
    s := "";
    for i := 0 to |e|
      invariant s + Lines(e[i..]) == Lines(e)
    {
      assert e[i..][0] == e[i] && e[i..][1..] == e[i + 1..];
      s := s + PAD + e[i].0 + ":" + e[i].1 + "\n";
    }
    assert Lines(e[|e|..]) == "";
  }

  /** A report's lines, one by one, around the lines of its three maps. */
  function Layout(user: string, game: string, e: Event, time: string): string {
    "SEND\ndestination:/" + game + "\n\n" + ("user:" + user + "\n") + ("event name:" + e.name + "\n")
    + ("time:" + time + "\n") + ("general game updates:" + "\n") + Lines(e.general)
    + ("team a updates:" + "\n") + Lines(e.a) + ("team b updates:" + "\n") + Lines(e.b)
    + "\n" + ("description:" + e.description + "\n")
  }

  lemma EmptyField(marker: string)
    ensures Field(marker, "") == marker + "\n"
  {
  }

  lemma LayoutIs(user: string, game: string, e: Event)
    ensures SendText(user, game, e) == Layout(user, game, e, PrintInt(e.time))
  {
    hide Lines;
    hide PrintInt;
    hide SendText;
    PiecesTogether(user, game, e);
    EmptyField(GENERAL);
    EmptyField(TEAM_A);
    EmptyField(TEAM_B);
  }

  /** The stream of one event, piece after piece. */
  method PrintEvent(user: string, game: string, e: Event) returns (send: string)
    ensures send == SendText(user, game, e)
    ensures exists time :: Decimal(time, e.time) && send == Layout(user, game, e, time)
  {
    hide *;
    PrintedIsDecimal(e.time);
    LayoutIs(user, game, e);
    send := "SEND\ndestination:/" + game + "\n\n" + Field(USER, user) + Field(EVENT, e.name)
            + Field(TIME, PrintInt(e.time));
    send := send + Field(GENERAL, "");
    var lines := PrintLines(e.general);
    send := send + lines + Field(TEAM_A, "");
    lines := PrintLines(e.a);
    send := send + lines + Field(TEAM_B, "");
    lines := PrintLines(e.b);
    send := send + lines + "\n" + Field(DESCRIPTION, e.description);
    PiecesTogether(user, game, e);
  }

  lemma PiecesTogether(user: string, game: string, e: Event)
    ensures SendText(user, game, e) ==
            "SEND\ndestination:/" + game + "\n\n" + Field(USER, user) + Field(EVENT, e.name)
            + Field(TIME, PrintInt(e.time))
            + Field(GENERAL, "") + Lines(e.general) + Field(TEAM_A, "") + Lines(e.a) + Field(TEAM_B, "") + Lines(e.b)
            + "\n" + Field(DESCRIPTION, e.description)
  {
    hide Field;
    hide Lines;
    hide DESCRIPTION;
  }

  /** The loop over the events of a file: one SEND each, in order. */
  method Report(user: string, teamA: string, teamB: string, events: seq<Event>) returns (frames: seq<string>)
    ensures |frames| == |events|
    ensures forall i :: 0 <= i < |events| ==> frames[i] == SendText(user, teamA + "_" + teamB, events[i])
  {
    hide SendText;
    frames := [];
    for i := 0 to |events|
      invariant |frames| == i
      invariant forall j :: 0 <= j < i ==> frames[j] == SendText(user, teamA + "_" + teamB, events[j])
    {
      var send := PrintEvent(user, teamA + "_" + teamB, events[i]);
      frames := frames + [send];
    }
  }

  predicate WholeEntries(e: seq<Entry>) {
    forall x :: x in e ==> '\0' !in x.0 && '\0' !in x.1
  }

  /** Nothing a report is made of contains U+0000, at which its frame would end. */
  predicate Carried(game: string, user: string, e: Event) {
    && '\0' !in game && '\0' !in user && '\0' !in e.name && '\0' !in e.description
    && WholeEntries(e.general) && WholeEntries(e.a) && WholeEntries(e.b)
  }

  lemma {:induction false} LinesAreWhole(e: seq<Entry>)
    ensures '\0' !in Lines(e) <==> WholeEntries(e)
  {
    if e == [] {
    } else {
      assert e == [e[0]] + e[1..];
      assert '\0' !in Line(e[0]) <==> '\0' !in e[0].0 && '\0' !in e[0].1;
      assert '\0' !in PAD;
      hide Line;
      LinesAreWhole(e[1..]);
    }
  }

  lemma FieldIsWhole(marker: string, value: string)
    requires '\0' !in marker
    ensures '\0' !in Field(marker, value) <==> '\0' !in value
  {
  }

  lemma MarkersAreWhole()
    ensures '\0' !in USER && '\0' !in EVENT && '\0' !in TIME && '\0' !in GENERAL && '\0' !in DESCRIPTION
    ensures '\0' !in TEAM_A && '\0' !in TEAM_B
  {
  }

  lemma IntIsWhole(n: int)
    ensures '\0' !in PrintInt(n)
  {
    assert !IsDigit('\0');
    hide Dec;
  }

  lemma UpdatesAreWhole(e: Event)
    ensures '\0' !in UpdatesText(e) <==> WholeEntries(e.general) && WholeEntries(e.a) && WholeEntries(e.b)
  {
    MarkersAreWhole();
    hide TEAM_A;
    hide TEAM_B;
    FieldIsWhole(TEAM_A, "");
    FieldIsWhole(TEAM_B, "");
    LinesAreWhole(e.general);
    LinesAreWhole(e.a);
    LinesAreWhole(e.b);
    hide Lines;
    hide Field;
    hide WholeEntries;
  }

  lemma BodyIsWhole(user: string, e: Event)
    ensures '\0' !in Body(user, e) <==> Carried("", user, e)
  {
    MarkersAreWhole();
    hide USER;
    hide EVENT;
    hide TIME;
    hide GENERAL;
    hide DESCRIPTION;
    FieldIsWhole(USER, user);
    FieldIsWhole(EVENT, e.name);
    FieldIsWhole(TIME, PrintInt(e.time));
    FieldIsWhole(GENERAL, "");
    FieldIsWhole(DESCRIPTION, e.description);
    IntIsWhole(e.time);
    UpdatesAreWhole(e);
    hide Field;
    hide PrintInt;
    hide UpdatesText;
    hide WholeEntries;
  }

  /** A report's text has no U+0000 exactly if nothing it is made of has. */
  lemma SendIsWhole(user: string, game: string, e: Event)
    ensures '\0' !in SendText(user, game, e) <==> Carried(game, user, e)
  {
    BodyIsWhole(user, e);
    hide Body;
    hide WholeEntries;
  }

  /** substr from a marker on, past it, up to the line's end; None where find fails and substr throws. */
  function Grab(s: string, marker: string): Option<string> {
    match Find(s, marker) case None => None case Some(i) => Some(UpTo(s[i + |marker|..], "\n"))
  }

  /** The updates lose 22 characters: their marker and its line break. */
  function GrabUpdates(s: string): Option<string> {
    match Find(s, GENERAL)
    case None => None
    case Some(i) => if i + 22 > |s| then None else Some(UpTo(s[i + 22..], DESCRIPTION))
  }

  function GrabDescription(s: string): Option<string> {
    match Find(s, DESCRIPTION) case None => None case Some(i) => Some(s[i + 12..])
  }

  /** What a client takes out of a MESSAGE; None where a marker is missing. */
  function Extract(msg: string): Option<Note> {
    match Find(msg, "\n")
    case None => None
    case Some(i) =>
      var s := msg[i..];
      match (Grab(s, "/"), Grab(s, USER), Grab(s, EVENT), Grab(s, TIME), GrabUpdates(s), GrabDescription(s))
      case (Some(game), Some(user), Some(event), Some(time), Some(updates), Some(description)) =>
        Some(Note(game, user, time, event, updates, description))
      case _ => None
  }

  /** A marker ends with its only colon and has no line break. */
  predicate Marker(m: string) {
    m != "" && '\n' !in m && '/' !in m && m[0] != ' ' && ':' !in m[..|m| - 1] && m[|m| - 1] == ':'
  }

  lemma MarkerIs(words: string)
    requires words != "" && '\n' !in words && '/' !in words && ':' !in words && words[0] != ' '
    ensures Marker(words + ":")
  {
  }

  lemma FieldMarkers()
    ensures Marker(USER) && Marker(EVENT) && Marker(TIME)
  {
    MarkerIs("user");
    MarkerIs("event name");
    MarkerIs("time");
  }

  lemma TextMarkers()
    ensures Marker(GENERAL) && Marker(DESCRIPTION) && |GENERAL| == 21 && |DESCRIPTION| == 12
  {
    MarkerIs("general game updates");
    MarkerIs("description");
  }

  lemma TeamMarkers()
    ensures Marker(TEAM_A) && Marker(TEAM_B)
  {
    MarkerIs("team a updates");
    MarkerIs("team b updates");
  }

  lemma UserApart()
    ensures Free(USER, EVENT) && Free(USER, TIME) && Free(USER, GENERAL) && Free(USER, DESCRIPTION)
  {
    FreeWithout(USER, EVENT, 'v');
    FreeWithout(USER, TIME, 't');
    FreeWithout(USER, GENERAL, 'g');
    FreeWithout(USER, DESCRIPTION, 'd');
  }

  lemma EventApart()
    ensures Free(EVENT, TIME) && Free(EVENT, GENERAL) && Free(EVENT, DESCRIPTION)
  {
    hide Free;
    FreeWithout(EVENT, TIME, 'i');
    FreeWithout(EVENT, GENERAL, 'g');
    FreeWithout(EVENT, DESCRIPTION, 'd');
  }

  lemma TimeApart()
    ensures Free(TIME, GENERAL) && Free(TIME, DESCRIPTION) && Free(GENERAL, DESCRIPTION)
  {
    FreeWithout(TIME, GENERAL, 'g');
    FreeWithout(TIME, DESCRIPTION, 'd');
    FreeWithout(GENERAL, DESCRIPTION, 'c');
  }

  lemma TeamsApart()
    ensures Free(TEAM_A, TEAM_B) && Free(TEAM_A, DESCRIPTION) && Free(TEAM_B, DESCRIPTION)
  {
    FreeWithout(TEAM_A, TEAM_B, 'b');
    FreeWithout(TEAM_A, DESCRIPTION, 'c');
    FreeWithout(TEAM_B, DESCRIPTION, 'c');
  }

  lemma FieldGrabbed(x: string, m: string, v: string, rest: string)
    requires Marker(m) && Breaks(x, m) && '\n' !in v && Free(x, m)
    ensures Grab(x + (Field(m, v) + rest), m) == Some(v)
  {
    var s := x + (Field(m, v) + rest);
    assert s == x + m + (v + "\n" + rest);
    FindAtBreak(x, m, v + "\n" + rest);
    assert Find(s, m) == Some(|x|);
    assert s[|x| + |m|..] == v + ['\n'] + rest;
    FindChar(v, '\n', rest);
    assert (v + ['\n'] + rest)[..|v|] == v;
  }

  predicate WholeLines(x: string) {
    x == "" || x[|x| - 1] == '\n'
  }

  /** A field more is free of a later marker exactly if what it says is. */
  lemma OneMoreField(x: string, m: string, v: string, later: string)
    requires WholeLines(x) && Marker(m) && Marker(later) && Free(m, later)
    ensures WholeLines(x + Field(m, v)) && Breaks(x, later)
    ensures Free(x + Field(m, v), later) <==> Free(x, later) && Free(v, later)
  {
    FreeTogether(x, Field(m, v), later);
    FreeThen(m + v, '\n', later);
    assert Field(m, v) == (m + v) + ['\n'];
    FreeTogether(m, v, later);
  }

  /** The lines of a map are free of a marker exactly if each entry's line is. */
  predicate LinesFree(e: seq<Entry>, m: string) {
    forall x :: x in e ==> Free(Line(x), m)
  }

  lemma {:induction false} MoreLines(x: string, e: seq<Entry>, m: string)
    requires WholeLines(x) && Marker(m)
    ensures WholeLines(x + Lines(e)) && Breaks(x, m)
    ensures Free(x + Lines(e), m) <==> Free(x, m) && LinesFree(e, m)
    decreases e
  {
    hide Find;
    hide Line;
    if e == [] {
      assert x + Lines(e) == x;
    } else {
      var line := PAD + Line(e[0]);
      var x' := x + (line + ['\n']);
      assert x + Lines(e) == x' + Lines(e[1..]);
      MoreLines(x', e[1..], m);
      FreeTogether(x, line + ['\n'], m);
      FreeThen(line, '\n', m);
      FreePad(PAD, Line(e[0]), m);
      assert e == [e[0]] + e[1..];
    }
  }

  /** The head of a MESSAGE after its command, up to the body. */
  function Head(subscription: string, id: string, game: string): string {
    "\n" + Field(SUBSCRIPTION, subscription) + Field(MESSAGE_ID, id) + Field(DESTINATION, "/" + game) + "\n"
  }

  predicate Numeric(s: string) {
    forall c :: c in s ==> IsDigit(c)
  }

  lemma HeaderMarkers()
    ensures Marker(SUBSCRIPTION) && Marker(MESSAGE_ID) && Marker(DESTINATION)
  {
    MarkerIs("subscription");
    MarkerIs("message-id");
    MarkerIs("destination");
  }

  /** A marker that is in no header name and not numeric is in the head only if it is in the game. */
  lemma HeadFree(subscription: string, id: string, game: string, m: string)
    requires Marker(m) && Free(subscription, m) && Free(id, m)
    requires Free(SUBSCRIPTION, m) && Free(MESSAGE_ID, m) && Free(DESTINATION, m)
    ensures WholeLines(Head(subscription, id, game))
    ensures Free(Head(subscription, id, game), m) <==> Free(game, m)
  {
    HeaderMarkers();
    hide SUBSCRIPTION;
    hide MESSAGE_ID;
    hide DESTINATION;
    hide Marker;
    hide Find;
    hide Field;
    var x1 := "\n" + Field(SUBSCRIPTION, subscription);
    var x2 := x1 + Field(MESSAGE_ID, id);
    var x3 := x2 + Field(DESTINATION, "/" + game);
    LineBreakFree(m);
    OneMoreField("\n", SUBSCRIPTION, subscription, m);
    OneMoreField(x1, MESSAGE_ID, id, m);
    OneMoreField(x2, DESTINATION, "/" + game, m);
    FreeThen(x3, '\n', m);
    FreePad("/", game, m);
  }

  lemma LineBreakFree(m: string)
    requires Marker(m)
    ensures Free("\n", m) && '\n' !in m && '/' !in m && m != "" && m[0] != '/'
  {
    FreeWithout("\n", m, m[0]);
  }

  lemma NumericFree(s: string, m: string)
    requires Numeric(s) && Marker(m)
    ensures Free(s, m)
  {
    FreeWithout(s, m, ':');
  }

  lemma HeadersApartFromUser()
    ensures Free(SUBSCRIPTION, USER) && Free(MESSAGE_ID, USER) && Free(DESTINATION, USER)
  {
    hide Free;
    FreeWithout(SUBSCRIPTION, USER, 'e');
    FreeWithout(MESSAGE_ID, USER, 'u');
    FreeWithout(DESTINATION, USER, 'u');
  }

  lemma HeadersApartFromEvent()
    ensures Free(SUBSCRIPTION, EVENT) && Free(MESSAGE_ID, EVENT) && Free(DESTINATION, EVENT)
  {
    FreeWithout(SUBSCRIPTION, EVENT, 'v');
    FreeWithout(MESSAGE_ID, EVENT, 'v');
    FreeWithout(DESTINATION, EVENT, 'v');
  }

  lemma HeadersApartFromTime()
    ensures Free(SUBSCRIPTION, TIME) && Free(MESSAGE_ID, TIME) && Free(DESTINATION, TIME)
  {
    hide Find;
    FreeWithout(SUBSCRIPTION, TIME, 'm');
    FreeWithout(MESSAGE_ID, TIME, 't');
    FreeWithout(DESTINATION, TIME, 'm');
  }

  lemma HeadersApartFromGeneral()
    ensures Free(SUBSCRIPTION, GENERAL) && Free(MESSAGE_ID, GENERAL) && Free(DESTINATION, GENERAL)
  {
    FreeWithout(SUBSCRIPTION, GENERAL, 'g');
    FreeWithout(MESSAGE_ID, GENERAL, 'l');
    FreeWithout(DESTINATION, GENERAL, 'g');
  }

  lemma HeadersApartFromDescription()
    ensures Free(SUBSCRIPTION, DESCRIPTION) && Free(MESSAGE_ID, DESCRIPTION) && Free(DESTINATION, DESCRIPTION)
  {
    FreeWithout(SUBSCRIPTION, DESCRIPTION, 'd');
    FreeWithout(MESSAGE_ID, DESCRIPTION, 'c');
    FreeWithout(DESTINATION, DESCRIPTION, 'c');
  }

  /** The text up to the line of each marker. */
  function UpToEvent(head: string, user: string): string {
    head + Field(USER, user)
  }

  function UpToTime(head: string, user: string, e: Event): string {
    UpToEvent(head, user) + Field(EVENT, e.name)
  }

  function UpToGeneral(head: string, user: string, e: Event): string {
    UpToTime(head, user, e) + Field(TIME, PrintInt(e.time))
  }

  function UpToUpdates(head: string, user: string, e: Event): string {
    UpToGeneral(head, user, e) + Field(GENERAL, "")
  }

  function UpToDescription(head: string, user: string, e: Event): string {
    UpToUpdates(head, user, e) + UpdatesText(e)
  }

  lemma Stages(head: string, user: string, e: Event)
    ensures var t, rest := head + Body(user, e), UpdatesText(e) + Field(DESCRIPTION, e.description);
            && t == head + (Field(USER, user) + (Field(EVENT, e.name)
               + (Field(TIME, PrintInt(e.time)) + (Field(GENERAL, "") + rest))))
            && t == UpToEvent(head, user) + (Field(EVENT, e.name)
               + (Field(TIME, PrintInt(e.time)) + (Field(GENERAL, "") + rest)))
            && t == UpToTime(head, user, e) + (Field(TIME, PrintInt(e.time)) + (Field(GENERAL, "") + rest))
            && t == UpToGeneral(head, user, e) + (Field(GENERAL, "") + rest)
            && t == UpToDescription(head, user, e) + Field(DESCRIPTION, e.description)
  {
    hide UpdatesText;
    hide Field;
    hide PrintInt;
  }

  /** No marker of a line yet to come is anywhere before it. */
  predicate Clear(game: string, user: string, e: Event) {
    && Free(game, USER)
    && Free(game, EVENT) && Free(user, EVENT)
    && Free(game, TIME) && Free(user, TIME) && Free(e.name, TIME)
    && Free(game, GENERAL) && Free(user, GENERAL) && Free(e.name, GENERAL)
    && Free(game, DESCRIPTION) && Free(user, DESCRIPTION) && Free(e.name, DESCRIPTION)
    && LinesFree(e.general, DESCRIPTION) && LinesFree(e.a, DESCRIPTION) && LinesFree(e.b, DESCRIPTION)
  }

  lemma TimeFree(n: int, m: string)
    requires Marker(m) && m[0] != '-'
    ensures Free(PrintInt(n), m)
  {
    var digits := Dec(if n < 0 then -n else n);
    NumericFree(digits, m);
    FreePad("-", digits, m);
  }

  lemma EventPrefix(head: string, user: string)
    requires WholeLines(head)
    ensures WholeLines(UpToEvent(head, user))
    ensures Free(UpToEvent(head, user), EVENT) <==> Free(head, EVENT) && Free(user, EVENT)
  {
    FieldMarkers();
    UserApart();
    hide USER;
    hide EVENT;
    hide TIME;
    hide GENERAL;
    hide DESCRIPTION;
    hide Field;
    hide Marker;
    hide Find;
    hide Breaks;
    OneMoreField(head, USER, user, EVENT);
  }

  lemma TimePrefix(head: string, user: string, e: Event)
    requires WholeLines(head)
    ensures WholeLines(UpToTime(head, user, e))
    ensures Free(UpToTime(head, user, e), TIME) <==> Free(head, TIME) && Free(user, TIME) && Free(e.name, TIME)
  {
    FieldMarkers();
    UserApart();
    EventApart();
    hide USER;
    hide EVENT;
    hide TIME;
    hide GENERAL;
    hide DESCRIPTION;
    hide Field;
    hide Marker;
    hide Find;
    hide Breaks;
    OneMoreField(head, USER, user, TIME);
    OneMoreField(UpToEvent(head, user), EVENT, e.name, TIME);
  }

  /** The three fields and a marker that comes after them. */
  lemma FieldsPrefix(head: string, user: string, e: Event, m: string)
    requires WholeLines(head) && Marker(m) && m[0] != '-'
    requires Free(USER, m) && Free(EVENT, m) && Free(TIME, m)
    ensures WholeLines(UpToGeneral(head, user, e))
    ensures Free(UpToGeneral(head, user, e), m) <==> Free(head, m) && Free(user, m) && Free(e.name, m)
  {
    FieldMarkers();
    TimeFree(e.time, m);
    hide USER;
    hide EVENT;
    hide TIME;
    hide Field;
    hide Marker;
    hide Find;
    hide Breaks;
    hide PrintInt;
    OneMoreField(head, USER, user, m);
    OneMoreField(UpToEvent(head, user), EVENT, e.name, m);
    OneMoreField(UpToTime(head, user, e), TIME, PrintInt(e.time), m);
  }

  lemma UpdatesPrefix(x: string, e: Event)
    requires WholeLines(x)
    ensures WholeLines(x + UpdatesText(e))
    ensures Free(x + UpdatesText(e), DESCRIPTION) <==>
              Free(x, DESCRIPTION) && LinesFree(e.general, DESCRIPTION) && LinesFree(e.a, DESCRIPTION)
              && LinesFree(e.b, DESCRIPTION)
  {
    TextMarkers();
    TeamMarkers();
    TeamsApart();
    NothingFree(DESCRIPTION);
    hide TEAM_A;
    hide TEAM_B;
    hide DESCRIPTION;
    hide GENERAL;
    hide Field;
    hide Marker;
    hide Find;
    hide Breaks;
    hide Lines;
    hide LinesFree;
    hide Free;
    var x1 := x + Lines(e.general);
    var x2 := x1 + Field(TEAM_A, "");
    var x3 := x2 + Lines(e.a);
    var x4 := x3 + Field(TEAM_B, "");
    var x5 := x4 + Lines(e.b);
    MoreLines(x, e.general, DESCRIPTION);
    OneMoreField(x1, TEAM_A, "", DESCRIPTION);
    MoreLines(x2, e.a, DESCRIPTION);
    OneMoreField(x3, TEAM_B, "", DESCRIPTION);
    MoreLines(x4, e.b, DESCRIPTION);
    FreeThen(x5, '\n', DESCRIPTION);
    SevenPieces(x, Lines(e.general), Field(TEAM_A, ""), Lines(e.a), Field(TEAM_B, ""), Lines(e.b), "\n");
  }

  lemma SevenPieces(x: string, a: string, b: string, c: string, d: string, e: string, f: string)
    ensures x + (a + (b + (c + (d + (e + f))))) == x + a + b + c + d + e + f
  {
  }

  lemma NothingFree(m: string)
    requires Marker(m)
    ensures Free("", m) && '\n' !in m && m != ""
  {
  }

  lemma DescriptionPrefix(head: string, user: string, e: Event)
    requires WholeLines(head)
    ensures WholeLines(UpToDescription(head, user, e))
    ensures Free(UpToDescription(head, user, e), DESCRIPTION) <==>
              && Free(head, DESCRIPTION) && Free(user, DESCRIPTION) && Free(e.name, DESCRIPTION)
              && LinesFree(e.general, DESCRIPTION) && LinesFree(e.a, DESCRIPTION) && LinesFree(e.b, DESCRIPTION)
  {
    TextMarkers();
    UserApart();
    EventApart();
    TimeApart();
    NothingFree(DESCRIPTION);
    FieldsPrefix(head, user, e, DESCRIPTION);
    hide USER;
    hide EVENT;
    hide TIME;
    hide GENERAL;
    hide DESCRIPTION;
    hide Field;
    hide Marker;
    hide Find;
    hide Breaks;
    hide UpdatesText;
    hide LinesFree;
    hide UpToGeneral;
    OneMoreField(UpToGeneral(head, user, e), GENERAL, "", DESCRIPTION);
    UpdatesPrefix(UpToUpdates(head, user, e), e);
  }

  /** Numeric ids add no marker to the head: only the game can. */
  lemma HeadMarkers(subscription: string, id: string, game: string)
    requires Numeric(subscription) && Numeric(id)
    ensures var head := Head(subscription, id, game);
            && WholeLines(head) && (Free(head, USER) <==> Free(game, USER))
            && (Free(head, EVENT) <==> Free(game, EVENT))
            && (Free(head, TIME) <==> Free(game, TIME)) && (Free(head, GENERAL) <==> Free(game, GENERAL))
            && (Free(head, DESCRIPTION) <==> Free(game, DESCRIPTION))
  {
    FieldMarkers();
    TextMarkers();
    HeadersApartFromUser();
    HeadersApartFromEvent();
    HeadersApartFromTime();
    HeadersApartFromGeneral();
    HeadersApartFromDescription();
    hide USER;
    hide EVENT;
    hide TIME;
    hide GENERAL;
    hide DESCRIPTION;
    hide SUBSCRIPTION;
    hide MESSAGE_ID;
    hide DESTINATION;
    hide Marker;
    hide Head;
    hide Free;
    hide Numeric;
    NumericHead(subscription, id, game, USER);
    NumericHead(subscription, id, game, EVENT);
    NumericHead(subscription, id, game, TIME);
    NumericHead(subscription, id, game, GENERAL);
    NumericHead(subscription, id, game, DESCRIPTION);
  }

  lemma NumericHead(subscription: string, id: string, game: string, m: string)
    requires Numeric(subscription) && Numeric(id) && Marker(m)
    requires Free(SUBSCRIPTION, m) && Free(MESSAGE_ID, m) && Free(DESTINATION, m)
    ensures WholeLines(Head(subscription, id, game))
    ensures Free(Head(subscription, id, game), m) <==> Free(game, m)
  {
    NumericFree(subscription, m);
    NumericFree(id, m);
    HeadFree(subscription, id, game, m);
  }

  /**
   Every marker is found at the start of its own line exactly if no value printed before it has that
   marker. The description comes last, and no marker in it is taken for one.
   */
  lemma MarkersExactly(subscription: string, id: string, game: string, user: string, e: Event)
    requires Numeric(subscription) && Numeric(id)
    ensures var head := Head(subscription, id, game);
            var t := head + Body(user, e);
            && Find(t, USER) == Some(|head|) && Find(t, EVENT) == Some(|UpToEvent(head, user)|)
            && Find(t, TIME) == Some(|UpToTime(head, user, e)|)
            && Find(t, GENERAL) == Some(|UpToGeneral(head, user, e)|)
            && Find(t, DESCRIPTION) == Some(|UpToDescription(head, user, e)|)
            <==> Clear(game, user, e)
  {
    var head := Head(subscription, id, game);
    HeadMarkers(subscription, id, game);
    FieldMarkers();
    TextMarkers();
    UserApart();
    EventApart();
    TimeApart();
    Stages(head, user, e);
    EventPrefix(head, user);
    TimePrefix(head, user, e);
    FieldsPrefix(head, user, e, GENERAL);
    DescriptionPrefix(head, user, e);
    hide USER;
    hide EVENT;
    hide TIME;
    hide GENERAL;
    hide DESCRIPTION;
    hide UpToEvent;
    hide UpToTime;
    hide UpToGeneral;
    hide UpToUpdates;
    hide UpToDescription;
    hide Head;
    hide Body;
    hide Free;
    hide Find;
    hide LinesFree;
    hide UpdatesText;
    hide Field;
    hide PrintInt;
    var r4 := Field(GENERAL, "") + (UpdatesText(e) + Field(DESCRIPTION, e.description));
    var r3 := Field(TIME, PrintInt(e.time)) + r4;
    MarkerAtLine(head, USER, user, Field(EVENT, e.name) + r3);
    MarkerAtLine(UpToEvent(head, user), EVENT, e.name, r3);
    MarkerAtLine(UpToTime(head, user, e), TIME, PrintInt(e.time), r4);
    MarkerAtLine(UpToGeneral(head, user, e), GENERAL, "", UpdatesText(e) + Field(DESCRIPTION, e.description));
    MarkerAtLine(UpToDescription(head, user, e), DESCRIPTION, e.description, "");
    assert Field(DESCRIPTION, e.description) + "" == Field(DESCRIPTION, e.description);
  }

  lemma MarkerAtLine(x: string, m: string, v: string, rest: string)
    requires WholeLines(x) && Marker(m)
    ensures Find(x + (Field(m, v) + rest), m) == Some(|x|) <==> Free(x, m)
  {
    assert x + (Field(m, v) + rest) == x + m + (v + "\n" + rest);
    FindAtBreak(x, m, v + "\n" + rest);
  }

  lemma Regroup(x: string, m: string, v: string)
    ensures x + m + v + "\n" == x + Field(m, v)
  {
  }

  lemma MessageIs(subscription: string, id: string, game: string, body: string)
    ensures Render(Message(subscription, id, "/" + game, body)) == "MESSAGE" + (Head(subscription, id, game) + body)
  {
    hide Field;
    hide SUBSCRIPTION;
    hide MESSAGE_ID;
    hide DESTINATION;
    var a, b, c := Field(SUBSCRIPTION, subscription), Field(MESSAGE_ID, id), Field(DESTINATION, "/" + game);
    Regroup("MESSAGE" + "\n", SUBSCRIPTION, subscription);
    Regroup("MESSAGE" + "\n" + a, MESSAGE_ID, id);
    Regroup("MESSAGE" + "\n" + a + b, DESTINATION, "/" + game);
    assert "MESSAGE" + "\n" + a + b + c + "\n" + body == "MESSAGE" + ("\n" + a + b + c + "\n" + body);
  }

  lemma MessageText(subscription: string, id: string, game: string, body: string)
    ensures var text := Render(Message(subscription, id, "/" + game, body));
            && Find(text, "\n") == Some(7) && text[7..] == Head(subscription, id, game) + body
  {
    hide Find;
    hide Render;
    hide SUBSCRIPTION;
    hide MESSAGE_ID;
    hide DESTINATION;
    var t := Head(subscription, id, game) + body;
    MessageIs(subscription, id, game, body);
    assert t[0] == '\n';
    FindChar("MESSAGE", '\n', t[1..]);
    assert "MESSAGE" + t == "MESSAGE" + ['\n'] + t[1..];
  }

  lemma GameGrabbed(subscription: string, id: string, game: string, body: string)
    requires Numeric(subscription) && Numeric(id) && '\n' !in game
    ensures Grab(Head(subscription, id, game) + body, "/") == Some(game)
  {
    HeaderMarkers();
    assert DESTINATION == DESTINATION[..|DESTINATION|];
    SlashFree(subscription, id);
    hide SUBSCRIPTION;
    hide MESSAGE_ID;
    hide DESTINATION;
    var x := "\n" + Field(SUBSCRIPTION, subscription) + Field(MESSAGE_ID, id) + DESTINATION;
    var t := Head(subscription, id, game) + body;
    assert t == x + ['/'] + (game + "\n" + "\n" + body);
    FindChar(x, '/', game + "\n" + "\n" + body);
    assert t[|x| + 1..] == game + ['\n'] + ("\n" + body);
    FindChar(game, '\n', "\n" + body);
    assert (game + ['\n'] + ("\n" + body))[..|game|] == game;
  }

  lemma SlashFree(subscription: string, id: string)
    requires Numeric(subscription) && Numeric(id)
    ensures '/' !in "\n" + Field(SUBSCRIPTION, subscription) + Field(MESSAGE_ID, id) + DESTINATION
  {
    HeaderMarkers();
    hide SUBSCRIPTION;
    hide MESSAGE_ID;
    hide DESTINATION;
    assert !IsDigit('/');
  }

  /** A text that has no marker before its end is cut back to itself. */
  lemma CutBack(u: string, m: string, more: string)
    requires Breaks(u, m) && Free(u, m)
    ensures UpTo(u + m + more, m) == u
  {
    FindAtBreak(u, m, more);
    assert (u + m + more)[..|u|] == u;
  }

  lemma UpdatesGrabbed(x: string, u: string, d: string)
    requires WholeLines(x) && Free(x, GENERAL) && WholeLines(u) && Free(u, DESCRIPTION)
    ensures GrabUpdates(x + (Field(GENERAL, "") + (u + Field(DESCRIPTION, d)))) == Some(u)
  {
    hide GENERAL;
    hide DESCRIPTION;
    hide Find;
    hide UpTo;
    hide Free;
    TextMarkers();
    NothingFree(DESCRIPTION);
    var rest := u + Field(DESCRIPTION, d);
    var head := x + Field(GENERAL, "");
    MarkerAtLine(x, GENERAL, "", rest);
    assert x + (Field(GENERAL, "") + rest) == head + rest;
    assert (head + rest)[|x| + 22..] == rest;
    assert rest == u + DESCRIPTION + (d + "\n");
    CutBack(u, DESCRIPTION, d + "\n");
  }

  lemma DescriptionGrabbed(x: string, d: string)
    requires WholeLines(x) && Free(x, DESCRIPTION)
    ensures GrabDescription(x + Field(DESCRIPTION, d)) == Some(d + "\n")
  {
    TextMarkers();
    hide DESCRIPTION;
    MarkerAtLine(x, DESCRIPTION, d, "");
    assert Field(DESCRIPTION, d) + "" == Field(DESCRIPTION, d);
    assert (x + Field(DESCRIPTION, d))[|x| + 12..] == d + "\n";
  }

  lemma FieldsGrabbed(head: string, user: string, e: Event)
    requires WholeLines(head) && '\n' !in user && '\n' !in e.name
    requires Free(head, USER) && Free(head, EVENT) && Free(user, EVENT)
    requires Free(head, TIME) && Free(user, TIME) && Free(e.name, TIME)
    ensures var t := head + Body(user, e);
            Grab(t, USER) == Some(user) && Grab(t, EVENT) == Some(e.name) && Grab(t, TIME) == Some(PrintInt(e.time))
  {
    FieldMarkers();
    hide USER;
    hide EVENT;
    hide TIME;
    hide UpToEvent;
    hide UpToTime;
    hide Body;
    hide Free;
    hide UpdatesText;
    hide Field;
    hide PrintInt;
    hide Grab;
    Stages(head, user, e);
    EventPrefix(head, user);
    TimePrefix(head, user, e);
    TimeIsLine(e.time);
    var r4 := Field(GENERAL, "") + (UpdatesText(e) + Field(DESCRIPTION, e.description));
    var r3 := Field(TIME, PrintInt(e.time)) + r4;
    FieldGrabbed(head, USER, user, Field(EVENT, e.name) + r3);
    FieldGrabbed(UpToEvent(head, user), EVENT, e.name, r3);
    FieldGrabbed(UpToTime(head, user, e), TIME, PrintInt(e.time), r4);
  }

  lemma TextsGrabbed(head: string, user: string, e: Event)
    requires WholeLines(head)
    requires Free(head, GENERAL) && Free(user, GENERAL) && Free(e.name, GENERAL)
    requires Free(head, DESCRIPTION) && Free(user, DESCRIPTION) && Free(e.name, DESCRIPTION)
    requires LinesFree(e.general, DESCRIPTION) && LinesFree(e.a, DESCRIPTION) && LinesFree(e.b, DESCRIPTION)
    ensures var t := head + Body(user, e);
            GrabUpdates(t) == Some(UpdatesText(e)) && GrabDescription(t) == Some(e.description + "\n")
  {
    TextMarkers();
    UserApart();
    EventApart();
    TimeApart();
    assert GENERAL[0] == 'g';
    hide USER;
    hide EVENT;
    hide TIME;
    hide GENERAL;
    hide DESCRIPTION;
    hide UpToGeneral;
    hide UpToDescription;
    hide Body;
    hide Free;
    hide LinesFree;
    hide UpdatesText;
    hide Field;
    hide GrabUpdates;
    hide GrabDescription;
    Stages(head, user, e);
    FieldsPrefix(head, user, e, GENERAL);
    DescriptionPrefix(head, user, e);
    UpdatesPrefix("", e);
    NothingFree(DESCRIPTION);
    assert "" + UpdatesText(e) == UpdatesText(e);
    UpdatesGrabbed(UpToGeneral(head, user, e), UpdatesText(e), e.description);
    DescriptionGrabbed(UpToDescription(head, user, e), e.description);
  }

  /** A client takes out of a relayed report exactly what the reporter put in. */
  lemma ExtractsReport(subscription: string, id: string, game: string, user: string, e: Event)
    requires Numeric(subscription) && Numeric(id) && Clear(game, user, e)
    requires '\n' !in game && '\n' !in user && '\n' !in e.name
    ensures Extract(Render(Message(subscription, id, "/" + game, Body(user, e))))
            == Some(Note(game, user, PrintInt(e.time), e.name, UpdatesText(e), e.description + "\n"))
    ensures Decimal(Extract(Render(Message(subscription, id, "/" + game, Body(user, e)))).value.time, e.time)
  {
    hide USER;
    hide EVENT;
    hide TIME;
    hide GENERAL;
    hide DESCRIPTION;
    hide Find;
    hide Free;
    hide LinesFree;
    hide Head;
    hide Body;
    hide UpdatesText;
    hide PrintInt;
    hide Render;
    hide Grab;
    hide GrabUpdates;
    hide GrabDescription;
    var head := Head(subscription, id, game);
    MessageText(subscription, id, game, Body(user, e));
    GameGrabbed(subscription, id, game, Body(user, e));
    HeadMarkers(subscription, id, game);
    FieldsGrabbed(head, user, e);
    TextsGrabbed(head, user, e);
    hide Decimal;
    PrintedIsDecimal(e.time);
  }

  lemma TimeIsLine(n: int)
    ensures '\n' !in PrintInt(n)
  {
    var d := Dec(if n < 0 then -n else n);
    assert !IsDigit('\n');
  }

  /** A marker that is there is found, if not always where it was meant. */
  lemma FoundSomewhere(x: string, m: string, y: string)
    ensures Find(x + m + y, m).Some? && Find(x + m + y, m).value <= |x|
  {
    assert Occurs(x + m + y, m, |x|);
  }

  lemma FieldFound(x: string, m: string, v: string, rest: string)
    ensures Grab(x + (Field(m, v) + rest), m).Some?
  {
    hide Find;
    FoundSomewhere(x, m, v + "\n" + rest);
    assert x + (Field(m, v) + rest) == x + m + (v + "\n" + rest);
  }

  lemma UpdatesFound(x: string, rest: string)
    ensures GrabUpdates(x + (Field(GENERAL, "") + rest)).Some?
  {
    TextMarkers();
    hide GENERAL;
    hide Find;
    FoundSomewhere(x, GENERAL, "\n" + rest);
    assert x + (Field(GENERAL, "") + rest) == x + GENERAL + ("\n" + rest);
  }

  lemma DescriptionFound(x: string, d: string)
    ensures GrabDescription(x + Field(DESCRIPTION, d)).Some?
  {
    TextMarkers();
    hide DESCRIPTION;
    hide Find;
    FoundSomewhere(x, DESCRIPTION, d + "\n");
    assert x + Field(DESCRIPTION, d) == x + DESCRIPTION + (d + "\n");
  }

  lemma SlashFound(subscription: string, id: string, game: string, body: string)
    ensures Grab(Head(subscription, id, game) + body, "/").Some?
  {
    hide SUBSCRIPTION;
    hide MESSAGE_ID;
    hide DESTINATION;
    hide Find;
    var x := "\n" + Field(SUBSCRIPTION, subscription) + Field(MESSAGE_ID, id) + DESTINATION;
    FoundSomewhere(x, "/", game + "\n" + "\n" + body);
    assert Head(subscription, id, game) + body == x + "/" + (game + "\n" + "\n" + body);
  }

  /** Whatever the values are, a client takes some note out of a relayed report. */
  lemma SomeNoteIsTaken(subscription: string, id: string, game: string, user: string, e: Event)
    ensures Extract(Render(Message(subscription, id, "/" + game, Body(user, e)))).Some?
  {
    hide USER;
    hide EVENT;
    hide TIME;
    hide GENERAL;
    hide DESCRIPTION;
    hide Head;
    hide Body;
    hide Render;
    hide Find;
    hide Grab;
    hide GrabUpdates;
    hide GrabDescription;
    hide Field;
    hide PrintInt;
    hide UpdatesText;
    hide UpToEvent;
    hide UpToTime;
    hide UpToGeneral;
    hide UpToDescription;
    var head := Head(subscription, id, game);
    MessageText(subscription, id, game, Body(user, e));
    SlashFound(subscription, id, game, Body(user, e));
    Stages(head, user, e);
    var rest := UpdatesText(e) + Field(DESCRIPTION, e.description);
    var r4 := Field(GENERAL, "") + rest;
    var r3 := Field(TIME, PrintInt(e.time)) + r4;
    FieldFound(head, USER, user, Field(EVENT, e.name) + r3);
    FieldFound(UpToEvent(head, user), EVENT, e.name, r3);
    FieldFound(UpToTime(head, user, e), TIME, PrintInt(e.time), r4);
    UpdatesFound(UpToGeneral(head, user, e), rest);
    DescriptionFound(UpToDescription(head, user, e), e.description);
  }
}
