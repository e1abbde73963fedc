/** A relayed report read back: the statistics it leaves are the old ones with the event's laid over them. */
module ReportReading {
  import opened Wrappers
  import opened Text
  import opened OrderedMap
  import opened Game
  import opened Reports

  /** No entry before a team's marker has that marker in its line. */
  predicate TeamsClear(e: Event) {
    LinesFree(e.general, TEAM_A) && LinesFree(e.general, TEAM_B) && LinesFree(e.a, TEAM_B)
  }

  /** Entries whose keys and lines keep the grammar: one line each, cut at its first colon. */
  predicate OneLineEach(e: seq<Entry>) {
    forall x :: x in e ==> ':' !in x.0 && '\n' !in Line(x)
  }

  /**
   What trimming leaves of printed entries: no white space before a key, and none at the very end if that is
   trimmed.
   */
  function Stripped(e: seq<Entry>, atEnd: bool): seq<Entry> {
    if e == [] then []
    else if |e| == 1 then [(TrimLeft(e[0].0), if atEnd then TrimRight(e[0].1) else e[0].1)]
    else [(TrimLeft(e[0].0), e[0].1)] + Stripped(e[1..], true)
  }

  /** Entries that survive being printed and trimmed. */
  predicate Plain(e: seq<Entry>, atEnd: bool) {
    OneLineEach(e) && Stripped(e, atEnd) == e
  }

  function UpToTeamB(e: Event): string {
    Lines(e.general) + Field(TEAM_A, "") + Lines(e.a)
  }

  lemma UpdatesStages(e: Event)
    ensures UpdatesText(e) == Lines(e.general) + (Field(TEAM_A, "")
            + (Lines(e.a) + (Field(TEAM_B, "") + (Lines(e.b) + "\n"))))
    ensures UpdatesText(e) == UpToTeamB(e) + (Field(TEAM_B, "") + (Lines(e.b) + "\n"))
  {
    hide Lines;
    hide Field;
  }

  lemma TeamPrefixes(e: Event)
    ensures WholeLines(Lines(e.general)) && WholeLines(Lines(e.a)) && WholeLines(UpToTeamB(e))
    ensures Free(Lines(e.general), TEAM_A) <==> LinesFree(e.general, TEAM_A)
    ensures Free(UpToTeamB(e), TEAM_B) <==> LinesFree(e.general, TEAM_B) && LinesFree(e.a, TEAM_B)
    ensures Free(Lines(e.a), TEAM_B) <==> LinesFree(e.a, TEAM_B)
  {
    TeamMarkers();
    TeamsApart();
    NothingFree(TEAM_A);
    NothingFree(TEAM_B);
    hide TEAM_A;
    hide TEAM_B;
    hide Lines;
    hide LinesFree;
    hide Field;
    hide Find;
    hide Free;
    MoreLines("", e.general, TEAM_A);
    MoreLines("", e.general, TEAM_B);
    MoreLines("", e.a, TEAM_B);
    assert "" + Lines(e.general) == Lines(e.general) && "" + Lines(e.a) == Lines(e.a);
    OneMoreField(Lines(e.general), TEAM_A, "", TEAM_B);
    MoreLines(Lines(e.general) + Field(TEAM_A, ""), e.a, TEAM_B);
  }

  /** Both teams' markers are found on their own lines exactly if no entry before them has them. */
  lemma TeamsExactly(e: Event)
    ensures && Find(UpdatesText(e), TEAM_A) == Some(|Lines(e.general)|)
            && Find(UpdatesText(e), TEAM_B) == Some(|UpToTeamB(e)|)
            <==> TeamsClear(e)
  {
    TeamMarkers();
    TeamPrefixes(e);
    UpdatesStages(e);
    hide TEAM_A;
    hide TEAM_B;
    hide Lines;
    hide LinesFree;
    hide Field;
    hide Find;
    hide Free;
    hide UpdatesText;
    hide UpToTeamB;
    MarkerAtLine(Lines(e.general), TEAM_A, "", Lines(e.a) + (Field(TEAM_B, "") + (Lines(e.b) + "\n")));
    MarkerAtLine(UpToTeamB(e), TEAM_B, "", Lines(e.b) + "\n");
  }

  lemma LineSkipped(m: string, rest: string)
    requires Marker(m)
    ensures AfterLine(Field(m, "") + rest) == rest && AfterLine((Field(m, "") + rest)[1..]) == rest
  {
    assert Field(m, "") + rest == m + ['\n'] + rest;
    FindChar(m, '\n', rest);
    assert (Field(m, "") + rest)[1..] == m[1..] + ['\n'] + rest;
    FindChar(m[1..], '\n', rest);
  }

  /** The split where both markers are found at their own lines. */
  lemma SplitFound(g: string, restA: string, upToB: string, restB: string, t: string)
    requires t == g + (Field(TEAM_A, "") + restA) && t == upToB + (Field(TEAM_B, "") + restB)
    requires Find(t, TEAM_A) == Some(|g|) && Find(t, TEAM_B) == Some(|upToB|)
    ensures Split(t) == Some(Sections(g, UpTo(restA, TEAM_B), restB))
  {
    TeamMarkers();
    hide TEAM_A;
    hide TEAM_B;
    hide Find;
    hide AfterLine;
    hide UpTo;
    hide Field;
    LineSkipped(TEAM_A, restA);
    LineSkipped(TEAM_B, restB);
    FieldStarts(TEAM_A);
    assert UpTo(t, TEAM_A) == g by {
      UpToFound(t, TEAM_A, |g|);
    }
    assert t[|g| + 1..] == (Field(TEAM_A, "") + restA)[1..];
    assert t[|upToB|..] == Field(TEAM_B, "") + restB;
  }

  lemma UpToFound(t: string, m: string, n: nat)
    requires Find(t, m) == Some(n) && n <= |t|
    ensures UpTo(t, m) == t[..n]
  {
  }

  lemma FieldStarts(m: string)
    ensures Field(m, "") != ""
  {
  }

  /** The three sections come apart as they were put together. */
  lemma SectionsComeApart(e: Event)
    requires TeamsClear(e)
    ensures Split(UpdatesText(e)) == Some(Sections(Lines(e.general), Lines(e.a), Lines(e.b) + "\n"))
  {
    hide Split;
    hide Lines;
    hide Field;
    hide Find;
    hide UpTo;
    hide UpdatesText;
    hide UpToTeamB;
    TeamsExactly(e);
    UpdatesStages(e);
    var restB := Lines(e.b) + "\n";
    SplitFound(Lines(e.general), Lines(e.a) + (Field(TEAM_B, "") + restB), UpToTeamB(e), restB, UpdatesText(e));
    TeamCut(e, restB);
  }

  lemma TeamCut(e: Event, restB: string)
    requires TeamsClear(e)
    ensures UpTo(Lines(e.a) + (Field(TEAM_B, "") + restB), TEAM_B) == Lines(e.a)
  {
    TeamMarkers();
    TeamPrefixes(e);
    hide TEAM_A;
    hide TEAM_B;
    hide Lines;
    hide LinesFree;
    hide Find;
    hide UpTo;
    hide Free;
    hide UpToTeamB;
    assert Lines(e.a) + (Field(TEAM_B, "") + restB) == Lines(e.a) + TEAM_B + ("\n" + restB);
    CutBack(Lines(e.a), TEAM_B, "\n" + restB);
  }

  lemma InkInLine(x: Entry)
    ensures !AllSpace(Line(x)) && Line(x) == x.0 + [':'] + x.1
  {
    assert Line(x)[|x.0|] == ':';
    assert ':' in Line(x);
  }

  lemma PadsAreSpace()
    ensures AllSpace("") && AllSpace(PAD) && AllSpace("\n") && AllSpace("\n" + PAD)
  {
  }

  lemma SpaceTogether(a: string, b: string)
    requires AllSpace(a) && AllSpace(b)
    ensures AllSpace(a + b)
  {
  }

  lemma ColonStops(k: string, v: string)
    ensures TrimLeft(":" + v) == ":" + v && TrimRight(k + ":") == k + ":"
    ensures TrimLeft("") == TrimRight("") == ""
  {
  }

  lemma LeftTrimmed(x: Entry)
    ensures TrimLeft(Line(x)) == Line((TrimLeft(x.0), x.1))
  {
    hide AllSpace;
    hide TrimLeft;
    ColonStops("", x.1);
    assert Line(x) == x.0 + (":" + x.1) && Line((TrimLeft(x.0), x.1)) == TrimLeft(x.0) + (":" + x.1);
    if AllSpace(x.0) {
      TrimLeftOver(x.0, ":" + x.1);
      TrimSpace(x.0);
    } else {
      TrimLeftKeeps(x.0, ":" + x.1);
    }
  }

  lemma RightTrimmed(x: Entry)
    ensures TrimRight(Line(x)) == Line((x.0, TrimRight(x.1)))
  {
    hide AllSpace;
    hide TrimRight;
    ColonStops(x.0, "");
    assert Line(x) == (x.0 + ":") + x.1 && Line((x.0, TrimRight(x.1))) == (x.0 + ":") + TrimRight(x.1);
    if AllSpace(x.1) {
      TrimRightOver(x.0 + ":", x.1);
      TrimRightOver("", x.1);
      assert "" + x.1 == x.1;
    } else {
      TrimRightKeeps(x.0 + ":", x.1);
    }
  }

  lemma LineTrimmed(x: Entry)
    ensures TrimLeft(Line(x)) == Line((TrimLeft(x.0), x.1))
    ensures TrimRight(Line(x)) == Line((x.0, TrimRight(x.1)))
    ensures TrimLeft(TrimLeft(Line(x))) == TrimLeft(Line(x))
  {
    hide AllSpace;
    hide TrimLeft;
    hide TrimRight;
    InkInLine(x);
    TrimLeftKeeps(Line(x), "");
    LeftTrimmed(x);
    RightTrimmed(x);
  }

  lemma KeyAndValue(k: string, v: string)
    requires ':' !in k
    ensures KeyOf(Line((k, v))) == k && ValueOf(Line((k, v))) == v
  {
    assert Line((k, v)) == k + [':'] + v;
    FindChar(k, ':', v);
    assert Line((k, v))[..|k|] == k && Line((k, v))[|k| + 1..] == v;
  }

  lemma LinePut(m: seq<Entry>, pad: string, x: Entry)
    requires ':' !in x.0 && AllSpace(pad)
    ensures PutLine(m, pad + Line(x)) == Put(m, TrimLeft(x.0), x.1)
    ensures PutLine(m, TrimLeft(Line(x))) == Put(m, TrimLeft(x.0), x.1)
  {
    hide TrimLeft;
    hide KeyOf;
    hide ValueOf;
    hide Line;
    LineTrimmed(x);
    TrimLeftOver(pad, Line(x));
    TrimLeftIsPart(x.0);
    KeyAndValue(TrimLeft(x.0), x.1);
  }

  /** The lines of a map with the white space around them trimmed. */
  function Trimmed(e: seq<Entry>): string
    requires e != []
  {
    if |e| == 1 then TrimRight(TrimLeft(Line(e[0]))) else TrimLeft(Line(e[0])) + "\n" + TrimRight(Lines(e[1..]))
  }

  lemma InkInLines(e: seq<Entry>)
    requires e != []
    ensures !AllSpace(Lines(e))
  {
    InkInLine(e[0]);
    assert Lines(e)[5 + |e[0].0|] == ':';
    assert ':' in Lines(e);
  }

  /** The end of a last line, and of a line before others. */
  lemma RightOfLast(line: string)
    requires !AllSpace(line)
    ensures TrimRight(PAD + line + "\n") == PAD + TrimRight(line)
  {
    hide TrimLeft;
    hide TrimRight;
    hide AllSpace;
    PadsAreSpace();
    hide PAD;
    TrimRightOver(PAD + line, "\n");
    TrimRightKeeps(PAD, line);
  }

  lemma RightOfMore(line: string, lines: string)
    requires !AllSpace(lines)
    ensures TrimRight(PAD + line + "\n" + lines) == PAD + (line + "\n" + TrimRight(lines))
  {
    hide TrimLeft;
    hide TrimRight;
    hide AllSpace;
    PadsAreSpace();
    hide PAD;
    TrimRightKeeps(PAD + line + "\n", lines);
  }

  /** Trimming the end of some lines trims the last of them. */
  lemma LinesRightTrimmed(e: seq<Entry>)
    requires e != []
    ensures TrimRight(Lines(e)) == PAD + if |e| == 1
            then TrimRight(Line(e[0])) else Line(e[0]) + "\n" + TrimRight(Lines(e[1..]))
    ensures TrimRight(TrimRight(Lines(e))) == TrimRight(Lines(e)) && !AllSpace(TrimRight(Lines(e)))
  {
    hide TrimLeft;
    hide TrimRight;
    hide AllSpace;
    hide Line;
    hide PAD;
    InkInLines(e);
    TrimRightKeeps("", Lines(e));
    if |e| == 1 {
      InkInLine(e[0]);
      RightOfLast(Line(e[0]));
      assert PAD + Line(e[0]) + "\n" + Lines(e[1..]) == PAD + Line(e[0]) + "\n";
    } else {
      InkInLines(e[1..]);
      RightOfMore(Line(e[0]), Lines(e[1..]));
    }
  }

  lemma TrimOfLast(pad: string, line: string, more: string)
    requires AllSpace(pad) && AllSpace(more) && !AllSpace(line)
    ensures Trim(pad + (PAD + line + "\n") + more) == TrimRight(TrimLeft(line))
  {
    hide TrimLeft;
    hide TrimRight;
    hide AllSpace;
    PadsAreSpace();
    hide PAD;
    assert pad + (PAD + line + "\n") + more == (pad + PAD) + (line + ("\n" + more));
    SpaceTogether(pad, PAD);
    SpaceTogether("\n", more);
    TrimLeftOver(pad + PAD, line + ("\n" + more));
    TrimLeftKeeps(line, "\n" + more);
    TrimRightOver(TrimLeft(line), "\n" + more);
  }

  lemma TrimOfMore(pad: string, line: string, lines: string, more: string)
    requires AllSpace(pad) && AllSpace(more) && !AllSpace(line) && !AllSpace(lines)
    ensures Trim(pad + (PAD + line + "\n" + lines) + more) == TrimLeft(line) + "\n" + TrimRight(lines)
  {
    hide TrimLeft;
    hide TrimRight;
    hide AllSpace;
    PadsAreSpace();
    hide PAD;
    var rest := "\n" + lines + more;
    assert pad + (PAD + line + "\n" + lines) + more == (pad + PAD) + (line + rest);
    SpaceTogether(pad, PAD);
    TrimLeftOver(pad + PAD, line + rest);
    TrimLeftKeeps(line, rest);
    assert TrimLeft(line) + rest == (TrimLeft(line) + "\n" + lines) + more;
    TrimRightOver(TrimLeft(line) + "\n" + lines, more);
    TrimRightKeeps(TrimLeft(line) + "\n", lines);
  }

  /** Trimming some lines at both ends, whatever white space is around them. */
  lemma LinesTrimmed(pad: string, e: seq<Entry>, more: string)
    requires e != [] && AllSpace(pad) && AllSpace(more)
    ensures Trim(pad + Lines(e) + more) == Trimmed(e)
  {
    hide Trim;
    hide TrimLeft;
    hide TrimRight;
    hide AllSpace;
    hide Line;
    hide PAD;
    InkInLine(e[0]);
    if |e| == 1 {
      TrimOfLast(pad, Line(e[0]), more);
      assert PAD + Line(e[0]) + "\n" + Lines(e[1..]) == PAD + Line(e[0]) + "\n";
    } else {
      InkInLines(e[1..]);
      TrimOfMore(pad, Line(e[0]), Lines(e[1..]), more);
    }
  }

  /** And once more after their end has been trimmed. */
  lemma TrimmedAgain(e: seq<Entry>)
    requires e != []
    ensures Trim("\n" + TrimRight(Lines(e))) == Trimmed(e)
  {
    PadsAreSpace();
    hide TrimLeft;
    hide TrimRight;
    hide AllSpace;
    hide Line;
    hide PAD;
    LinesRightTrimmed(e);
    InkInLine(e[0]);
    if |e| == 1 {
      var line := TrimRight(Line(e[0]));
      assert "\n" + (PAD + line) == ("\n" + PAD) + line;
      TrimLeftOver("\n" + PAD, line);
      RightAfterLeft(e[0]);
    } else {
      LinesRightTrimmed(e[1..]);
      AgainOfMore(Line(e[0]), TrimRight(Lines(e[1..])));
    }
  }

  lemma AgainOfMore(line: string, lines: string)
    requires !AllSpace(line) && !AllSpace(lines) && TrimRight(lines) == lines
    ensures Trim("\n" + (PAD + (line + "\n" + lines))) == TrimLeft(line) + "\n" + lines
  {
    hide TrimLeft;
    hide TrimRight;
    hide AllSpace;
    PadsAreSpace();
    hide PAD;
    var rest := "\n" + lines;
    assert "\n" + (PAD + (line + "\n" + lines)) == ("\n" + PAD) + (line + rest);
    TrimLeftOver("\n" + PAD, line + rest);
    TrimLeftKeeps(line, rest);
    assert TrimLeft(line) + rest == (TrimLeft(line) + "\n") + lines;
    TrimRightKeeps(TrimLeft(line) + "\n", lines);
  }

  /** The two ends of a line are trimmed independently. */
  lemma RightAfterLeft(x: Entry)
    ensures TrimRight(TrimLeft(Line(x))) == TrimRight(TrimLeft(TrimRight(Line(x))))
            == Line((TrimLeft(x.0), TrimRight(x.1)))
  {
    LineTrimmed(x);
    LineTrimmed((TrimLeft(x.0), x.1));
    LineTrimmed((x.0, TrimRight(x.1)));
    LineTrimmed((TrimLeft(x.0), TrimRight(x.1)));
    if AllSpace(x.1) {
      TrimRightOver("", x.1);
      assert "" + x.1 == x.1;
    } else {
      TrimRightKeeps("", x.1);
    }
  }

  /** One turn of the line loop on a line with others after it. */
  lemma LineRead(line: string, rest: string, m: seq<Entry>)
    requires '\n' !in line
    ensures ReadLines(line + "\n" + rest, m) == ReadLines(Trim("\n" + rest), PutLine(m, line))
  {
    hide PutLine;
    hide Trim;
    var text := line + ['\n'] + rest;
    FindChar(line, '\n', rest);
    assert text[..|line|] == line && text[|line|..] == "\n" + rest;
  }

  /** And on the last one. */
  lemma LastLineRead(line: string, m: seq<Entry>)
    requires '\n' !in line && line != ""
    ensures ReadLines(line, m) == PutLine(m, line)
  {
    hide PutLine;
    FreeChar(line, '\n');
  }

  /** Trimmed lines are read as their stripped entries. */
  lemma {:induction false} TrimmedRead(e: seq<Entry>, m: seq<Entry>)
    requires e != [] && OneLineEach(e)
    ensures ReadLines(Trimmed(e), m) == PutAll(m, Stripped(e, true))
    decreases e
  {
    hide ReadLines;
    hide PutLine;
    hide Trim;
    hide Line;
    hide Put;
    var x := e[0];
    assert x in e;
    var k := TrimLeft(x.0);
    LineTrimmed(x);
    InkInLine(x);
    TrimLeftIsPart(Line(x));
    if |e| == 1 {
      var y := (k, TrimRight(x.1));
      RightAfterLeft(x);
      InkInLine(y);
      TrimLeftIsPart(x.0);
      TrimRightIsPart(TrimLeft(Line(x)));
      LastLineRead(Line(y), m);
      LinePut(m, "", y);
      assert "" + Line(y) == Line(y);
      KeyStaysTrimmed(x.0);
      assert PutAll(m, [y]) == PutAll(Put(m, y.0, y.1), [y][1..]);
    } else {
      var more := e[1..];
      LineRead(TrimLeft(Line(x)), TrimRight(Lines(more)), m);
      LinePut(m, "", x);
      TrimmedAgain(more);
      TrimmedRead(more, Put(m, k, x.1));
      assert Stripped(e, true)[1..] == Stripped(more, true);
    }
  }

  lemma KeyStaysTrimmed(k: string)
    ensures TrimLeft(TrimLeft(k)) == TrimLeft(k)
  {
    if AllSpace(k) {
      TrimSpace(k);
    } else {
      TrimLeftKeeps(k, "");
    }
  }

  /** The section before the first team's marker is not trimmed before its first line is cut off. */
  lemma LinesRead(e: seq<Entry>, m: seq<Entry>)
    requires OneLineEach(e)
    ensures ReadLines(Lines(e), m) == PutAll(m, Stripped(e, false))
  {
    if e == [] {
    } else {
      hide PutLine;
      hide Trim;
      hide Line;
      hide Put;
      hide ReadLines;
      var x, more := e[0], e[1..];
      assert x in e;
      LineRead(PAD + Line(x), Lines(more), m);
      LinePut(m, PAD, x);
      var m' := Put(m, TrimLeft(x.0), x.1);
      if more == [] {
        assert PutAll(m, Stripped(e, false)) == PutAll(m', Stripped(e, false)[1..]);
        NothingRead(m');
      } else {
        assert "\n" + Lines(more) + "" == "\n" + Lines(more);
        LinesTrimmed("\n", more, "");
        TrimmedRead(more, m');
        assert Stripped(e, false)[1..] == Stripped(more, true);
      }
    }
  }

  lemma NothingRead(m: seq<Entry>)
    ensures ReadLines(Trim("\n" + Lines([])), m) == m && ReadLines(Trim(Lines([])), m) == m
    ensures ReadLines(Trim(Lines([]) + "\n"), m) == m
  {
    TrimSpace("\n" + Lines([]));
    TrimSpace(Lines([]));
    TrimSpace(Lines([]) + "\n");
  }

  /** The two sections after it are. */
  lemma TeamLinesRead(e: seq<Entry>, more: string, m: seq<Entry>)
    requires OneLineEach(e) && (more == "" || more == "\n")
    ensures ReadLines(Trim(Lines(e) + more), m) == PutAll(m, Stripped(e, true))
  {
    if e == [] {
      NothingRead(m);
      assert Lines([]) + "" == Lines([]);
    } else {
      LinesTrimmed("", e, more);
      assert "" + Lines(e) + more == Lines(e) + more;
      TrimmedRead(e, m);
    }
  }

  /** What any line can put into a map. */
  predicate FromLine(x: Entry) {
    ':' !in x.0 && '\n' !in Line(x) && TrimLeft(x.0) == x.0
  }

  lemma LinePuts(m: seq<Entry>, line: string, x: Entry)
    requires '\n' !in line && x in PutLine(m, line)
    ensures x in m || FromLine(x)
  {
    var l := TrimLeft(line);
    TrimLeftIsPart(line);
    PutEntries(m, KeyOf(l), ValueOf(l), x);
    FreeChar(l, ':');
    if Find(l, ":").Some? {
      var i := Find(l, ":").value;
      forall j | 0 <= j < i ensures l[j] != ':' {
        assert !Occurs(l, ":", j);
        assert l[j..j + 1] == [l[j]];
      }
    }
    if !AllSpace(line) {
      TrimLeftKeeps(line, "");
    } else {
      TrimSpace(line);
    }
  }

  lemma {:induction false} ReadPuts(text: string, m: seq<Entry>, x: Entry)
    requires x in ReadLines(text, m)
    ensures x in m || FromLine(x)
    decreases |text|
  {
    hide PutLine;
    hide FromLine;
    if text == "" {
    } else {
      FreeChar(text, '\n');
      match Find(text, "\n")
      case None => LinePuts(m, text, x);
      case Some(n) =>
        NoneBefore(text, n);
        ReadPuts(Trim(text[n..]), PutLine(m, text[..n]), x);
        if x in PutLine(m, text[..n]) {
          LinePuts(m, text[..n], x);
        }
    }
  }

  lemma NoneBefore(text: string, n: nat)
    requires Find(text, "\n") == Some(n)
    ensures '\n' !in text[..n]
  {
    forall j | 0 <= j < n ensures text[j] != '\n' {
      assert !Occurs(text, "\n", j);
      assert text[j..j + 1] == [text[j]];
    }
  }

  lemma {:induction false} SameKeysOrdered(e: seq<Entry>, f: seq<Entry>)
    requires Ordered(e) && |e| == |f| && forall i :: 0 <= i < |e| ==> e[i].0 == f[i].0
    ensures Ordered(f)
  {
    hide Before;
    if e == [] {
    } else {
      SameKeysOrdered(e[1..], f[1..]);
      forall x | x in f[1..] ensures Before(f[0].0, x.0) {
        var i :| 0 <= i < |f[1..]| && f[1..][i] == x;
        assert e[1..][i] in e[1..];
      }
    }
  }

  lemma {:induction false} StrippedKeys(e: seq<Entry>, atEnd: bool)
    ensures |Stripped(e, atEnd)| == |e|
    ensures forall i :: 0 <= i < |e| ==> Stripped(e, atEnd)[i].0 == TrimLeft(e[i].0)
  {
    if |e| <= 1 {
    } else {
      StrippedKeys(e[1..], true);
    }
  }

  /** An ordered map put into an empty one is itself. */
  lemma PutIntoNothing(e: seq<Entry>)
    requires Ordered(e)
    ensures PutAll([], e) == e
  {
    PutAllMeans([], e);
    assert ToMap([]) + ToMap(e) == ToMap(e);
    OneListing(PutAll([], e), e);
  }

  lemma SurvivesExactly(text: string, e: seq<Entry>, atEnd: bool)
    requires Ordered(e) && (OneLineEach(e) ==> ReadLines(text, []) == PutAll([], Stripped(e, atEnd)))
    ensures ReadLines(text, []) == e <==> Plain(e, atEnd)
  {
    hide ReadLines;
    hide Line;
    if Plain(e, atEnd) {
      PutIntoNothing(e);
    }
    if ReadLines(text, []) == e {
      forall x | x in e ensures FromLine(x) {
        ReadPuts(text, [], x);
      }
      StrippedKeys(e, atEnd);
      forall i | 0 <= i < |e| ensures Stripped(e, atEnd)[i].0 == e[i].0 {
        assert e[i] in e;
      }
      SameKeysOrdered(e, Stripped(e, atEnd));
      PutIntoNothing(Stripped(e, atEnd));
    }
  }

  /**
   Printing a map and reading its lines gives the map if and only if its keys have no colon, no line
   break and no white space in front, its values no line break, and, where the end is trimmed, the last
   value no white space at its end.
   */
  lemma SectionsReadBackExactly(e: seq<Entry>)
    requires Ordered(e)
    ensures ReadLines(Lines(e), []) == e <==> Plain(e, false)
    ensures ReadLines(Trim(Lines(e)), []) == e <==> Plain(e, true)
    ensures ReadLines(Trim(Lines(e) + "\n"), []) == e <==> Plain(e, true)
  {
    hide ReadLines;
    hide Plain;
    hide OneLineEach;
    if OneLineEach(e) {
      LinesRead(e, []);
      TeamLinesRead(e, "", []);
      TeamLinesRead(e, "\n", []);
      assert Lines(e) + "" == Lines(e);
    }
    SurvivesExactly(Lines(e), e, false);
    SurvivesExactly(Trim(Lines(e)), e, true);
    SurvivesExactly(Trim(Lines(e) + "\n"), e, true);
  }

  /** Everything about an event that makes its report readable. */
  predicate Readable(game: string, user: string, e: Event) {
    && Carried(game, user, e) && Clear(game, user, e) && TeamsClear(e)
    && Plain(e.general, false) && Plain(e.a, true) && Plain(e.b, true)
    && '\n' !in game && '\n' !in user && '\n' !in e.name
  }

  /** What an update makes of a relayed report whose sections come apart. */
  lemma UpdateReads(g: Stats, e: Event)
    requires TeamsClear(e) && OneLineEach(e.general) && OneLineEach(e.a) && OneLineEach(e.b)
    ensures Updated(g, PrintInt(e.time), e.name, UpdatesText(e), e.description + "\n")
            == Some(Stats(PutAll(g.general, Stripped(e.general, false)), PutAll(g.a, Stripped(e.a, true)),
                          PutAll(g.b, Stripped(e.b, true)),
                          g.updates + [ReportEntry(PrintInt(e.time), e.name, e.description + "\n")]))
  {
    hide ReadLines;
    hide Split;
    hide OneLineEach;
    hide TeamsClear;
    SectionsComeApart(e);
    LinesRead(e.general, g.general);
    TeamLinesRead(e.a, "", g.a);
    TeamLinesRead(e.b, "\n", g.b);
    assert Lines(e.a) + "" == Lines(e.a);
  }

  /** A first report leaves exactly the event's statistics if and only if every section survives being printed. */
  lemma UpdateReadsBackExactly(e: Event)
    requires TeamsClear(e) && Ordered(e.general) && Ordered(e.a) && Ordered(e.b)
    ensures Updated(NoStats, PrintInt(e.time), e.name, UpdatesText(e), e.description + "\n")
            == Some(Stats(e.general, e.a, e.b, [ReportEntry(PrintInt(e.time), e.name, e.description + "\n")]))
            <==> Plain(e.general, false) && Plain(e.a, true) && Plain(e.b, true)
  {
    hide ReadLines;
    hide Split;
    hide Plain;
    hide TeamsClear;
    SectionsComeApart(e);
    SectionsReadBackExactly(e.general);
    SectionsReadBackExactly(e.a);
    SectionsReadBackExactly(e.b);
    assert [] + [ReportEntry(PrintInt(e.time), e.name, e.description + "\n")]
        == [ReportEntry(PrintInt(e.time), e.name, e.description + "\n")];
  }

  /** An entry with one colon and a short key forms no marker. */
  lemma ShortKeyFree(x: Entry, m: string)
    requires Marker(m) && |x.0| + 1 < |m| && ':' !in x.0 && ':' !in x.1
    ensures Free(Line(x), m)
  {
    forall j: nat ensures !Occurs(Line(x), m, j) {
      if j + |m| <= |Line(x)| {
        assert Line(x)[j..j + |m|][|m| - 1] == Line(x)[j + |m| - 1];
      }
    }
  }

  predicate ShortKeys(e: seq<Entry>) {
    forall x :: x in e ==> |x.0| < 11 && ':' !in x.0 && ':' !in x.1
  }

  /**
   A condition anyone can check: without colons in names and values, and with short keys, no marker is
   misread, and a report is readable exactly if it has no U+0000, its names are lines and its maps plain.
   */
  lemma WithoutColonsAllIsClear(game: string, user: string, e: Event)
    requires ':' !in game && ':' !in user && ':' !in e.name
    requires ShortKeys(e.general) && ShortKeys(e.a) && ShortKeys(e.b)
    ensures Clear(game, user, e) && TeamsClear(e)
    ensures Readable(game, user, e) <==>
              && Carried(game, user, e) && '\n' !in game && '\n' !in user && '\n' !in e.name
              && Plain(e.general, false) && Plain(e.a, true) && Plain(e.b, true)
  {
    FieldMarkers();
    TextMarkers();
    TeamMarkers();
    hide USER;
    hide EVENT;
    hide TIME;
    hide GENERAL;
    hide Find;
    forall s, m | s in {game, user, e.name} && m in {USER, EVENT, TIME, GENERAL, DESCRIPTION} ensures Free(s, m) {
      FreeWithout(s, m, ':');
    }
    assert |TEAM_A| == 15 && |TEAM_B| == 15;
    hide DESCRIPTION;
    hide TEAM_A;
    hide TEAM_B;
    forall x, m | x in e.general + e.a + e.b && m in {DESCRIPTION, TEAM_A, TEAM_B} ensures Free(Line(x), m) {
      ShortKeyFree(x, m);
    }
  }
}
