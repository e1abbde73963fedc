/** What a reader finds in a summary: each team's statistics under its own name, and when exactly. */
module SummaryReading {
  import opened Wrappers
  import opened Text
  import opened OrderedMap
  import opened Game
  import opened ClientUser
  import S = ClientStore

  /** A text cut at its line breaks. */
  function LinesOf(s: string): (r: seq<string>)
    ensures r != []
    decreases |s|
  {
    match Find(s, "\n") case None => [s] case Some(n) => [s[..n]] + LinesOf(s[n + 1..])
  }

  /** A line of a summary read as an entry: what is before its first colon and blank, and what is after. */
  function ReadEntry(line: string): Entry {
    match Find(line, ": ") case None => (line, "") case Some(i) => (line[..i], line[i + 2..])
  }

  function ReadEntries(lines: seq<string>): seq<Entry> {
    seq(|lines|, i requires 0 <= i < |lines| => ReadEntry(lines[i]))
  }

  /** The lines before the first one that reads so. */
  function UpToLine(lines: seq<string>, line: string): seq<string> {
    lines[..FirstIndex(lines, line)]
  }

  /** The lines after it. */
  function PastLine(lines: seq<string>, line: string): seq<string> {
    if FirstIndex(lines, line) == |lines| then [] else lines[FirstIndex(lines, line) + 1..]
  }

  datatype Shown = Shown(title: string, general: seq<Entry>, a: seq<Entry>, b: seq<Entry>, reports: seq<string>)

  /**
   A summary as anyone would read it: the title, the lines under "General stats:", those under the first
   team's header, those under the second's up to the blank line, and the reports under their own header.
   */
  function ReadSummary(text: string, teamA: string, teamB: string): Shown {
    var lines := LinesOf(text);
    var general := PastLine(lines, "General stats:");
    var a := PastLine(general, teamA + " stats:");
    var b := PastLine(a, teamB + " stats:");
    Shown(lines[0], ReadEntries(UpToLine(general, teamA + " stats:")), ReadEntries(UpToLine(a, teamB + " stats:")),
          ReadEntries(UpToLine(b, "")), PastLine(PastLine(b, ""), "Game event reports:"))
  }

  function StatLine(x: Entry): string {
    x.0 + ": " + x.1
  }

  function StatTexts(e: seq<Entry>): seq<string> {
    seq(|e|, i requires 0 <= i < |e| => StatLine(e[i]))
  }

  /** The reports in the order in which they arrived, each followed by an empty line. */
  function Reports(updates: seq<string>): string {
    if updates == [] then "" else updates[0] + "\n\n" + Reports(updates[1..])
  }

  lemma LineCut(x: string, rest: string)
    requires '\n' !in x
    ensures LinesOf(x + "\n" + rest) == [x] + LinesOf(rest)
  {
    FindChar(x, '\n', rest);
    assert x + "\n" + rest == x + ['\n'] + rest;
    assert (x + "\n" + rest)[..|x|] == x && (x + "\n" + rest)[|x| + 1..] == rest;
  }

  lemma Regroup(x: string, y: string, z: string)
    ensures x + (y + z) == x + y + z
  {
  }

  /** The loop that prints a map begins with its first entry. */
  lemma {:induction false} StatLinesFront(e: seq<Entry>)
    requires e != []
    ensures StatLines(e) == StatLine(e[0]) + "\n" + StatLines(e[1..])
  {
    var last := e[|e| - 1];
    if |e| == 1 {
      assert StatLines(e[..0]) == "" && StatLines(e[1..]) == "";
      assert "" + last.0 + ": " + last.1 + "\n" == StatLine(e[0]) + "\n" + "";
    } else {
      StatLinesFront(e[..|e| - 1]);
      assert e[..|e| - 1][1..] == e[1..][..|e[1..]| - 1];
      OneMoreLine(StatLine(e[0]) + "\n", StatLines(e[1..][..|e[1..]| - 1]), last);
    }
  }

  lemma OneMoreLine(x: string, y: string, last: Entry)
    ensures (x + y) + last.0 + ": " + last.1 + "\n" == x + (y + last.0 + ": " + last.1 + "\n")
  {
  }

  lemma {:induction false} ReportsFront(updates: seq<string>)
    ensures ReportLines(updates) == Reports(updates)
  {
    if updates == [] {
    } else {
      ReportsBack(updates);
      ReportsFront(updates[..|updates| - 1]);
    }
  }

  lemma {:induction false} ReportsBack(updates: seq<string>)
    requires updates != []
    ensures Reports(updates) == Reports(updates[..|updates| - 1]) + updates[|updates| - 1] + "\n\n"
  {
    if |updates| == 1 {
      assert Reports(updates[1..]) == "" && Reports(updates[..0]) == "";
    } else {
      ReportsBack(updates[1..]);
      assert updates[1..][..|updates[1..]| - 1] == updates[..|updates| - 1][1..];
      var most := Reports(updates[..|updates| - 1][1..]);
      LastReport(updates[0] + "\n\n", most, updates[|updates| - 1]);
    }
  }

  lemma LastReport(x: string, y: string, u: string)
    ensures x + (y + u + "\n\n") == x + y + u + "\n\n"
  {
  }

  lemma StatLineLined(x: Entry)
    requires ':' !in x.0 && '\n' !in x.0 && '\n' !in x.1
    ensures '\n' !in StatLine(x) && ReadEntry(StatLine(x)) == x && StatLine(x) != ""
  {
    FreeWithout(x.0, ": ", ':');
    FindAtBreak(x.0, ": ", x.1);
    assert StatLine(x) == x.0 + ": " + x.1;
    assert StatLine(x)[..|x.0|] == x.0 && StatLine(x)[|x.0| + 2..] == x.1;
  }

  /** A printed map is its lines. */
  lemma {:induction false} LinesOfStats(e: seq<Entry>, rest: string)
    requires Lined(e)
    ensures LinesOf(StatLines(e) + rest) == StatTexts(e) + LinesOf(rest)
    decreases e
  {
    hide LinesOf;
    hide StatLine;
    if e == [] {
      assert StatLines(e) + rest == rest && StatTexts(e) + LinesOf(rest) == LinesOf(rest);
    } else {
      assert e[0] in e && forall x :: x in e[1..] ==> x in e;
      StatLinesFront(e);
      StatLineLined(e[0]);
      LineCut(StatLine(e[0]), StatLines(e[1..]) + rest);
      Regroup(StatLine(e[0]) + "\n", StatLines(e[1..]), rest);
      LinesOfStats(e[1..], rest);
      assert StatTexts(e) == [StatLine(e[0])] + StatTexts(e[1..]);
    }
  }

  lemma EntriesComeBack(e: seq<Entry>)
    requires Lined(e)
    ensures ReadEntries(StatTexts(e)) == e
  {
    forall i | 0 <= i < |e| ensures ReadEntry(StatTexts(e)[i]) == e[i] {
      assert e[i] in e;
      StatLineLined(e[i]);
    }
  }

  /** Lines without a header, the header, and more: the header is found where it is. */
  lemma HeaderFound(texts: seq<string>, header: string, rest: seq<string>)
    ensures header !in texts ==>
              UpToLine(texts + [header] + rest, header) == texts && PastLine(texts + [header] + rest, header) == rest
    ensures header in texts ==> |UpToLine(texts + [header] + rest, header)| < |texts|
  {
    var all := texts + [header] + rest;
    var i := FirstIndex(all, header);
    assert all[|texts|] == header;
    if header in texts {
      var j :| 0 <= j < |texts| && texts[j] == header;
      assert all[j] == header;
    } else {
      forall j | 0 <= j < |texts| ensures all[j] != header {
        assert all[j] == texts[j];
      }
      assert i == |texts|;
    }
  }

  /**
   No statistic of the general section looks like the first team's header, and none of that team's like the
   second's.
   */
  predicate HeadersApart(teamA: string, teamB: string, g: Stats) {
    teamA + " stats:" !in StatTexts(g.general) && teamB + " stats:" !in StatTexts(g.a)
  }

  /** The lines of a summary. */
  function SummaryLines(teamA: string, teamB: string, g: Stats): seq<string> {
    [teamA + " vs " + teamB, "Game stats:"] + ["General stats:"]
    + (StatTexts(g.general) + [teamA + " stats:"]
       + (StatTexts(g.a) + [teamB + " stats:"]
          + (StatTexts(g.b) + [""] + ([] + ["Game event reports:"] + LinesOf(Reports(g.updates))))))
  }

  lemma StatsWords()
    ensures "\nGame stats:\nGeneral stats:\n" == "\n" + "Game stats:" + "\n" + "General stats:" + "\n"
    ensures '\n' !in "Game stats:" && '\n' !in "General stats:"
  {
  }

  lemma HeaderWords()
    ensures " stats:\n" == " stats:" + "\n" && '\n' !in " stats:" && '\n' !in " vs "
  {
  }

  lemma ReportWords()
    ensures "\nGame event reports:\n" == "\n" + "Game event reports:" + "\n" && '\n' !in "Game event reports:"
  {
  }

  lemma Grouped(t: string, n: string, w: string, v: string, g: string, a: string, u: string, sa: string, b: string,
                sb: string, e: string, r: string)
    ensures t + (n + w + n + v + n) + g + a + (u + n) + sa + b + (u + n) + sb + (n + e + n) + r
            == t + n + (w + n + (v + n + (g + (a + u + n + (sa + (b + u + n + (sb + ("" + n + (e + n + r)))))))))
  {
  }

  lemma SummaryGrouped(teamA: string, teamB: string, g: Stats)
    ensures Summary(teamA, teamB, g)
            == teamA + " vs " + teamB + "\n" + ("Game stats:" + "\n" + ("General stats:" + "\n" + (StatLines(g.general)
               + (teamA + " stats:" + "\n" + (StatLines(g.a) + (teamB + " stats:" + "\n" + (StatLines(g.b)
               + ("" + "\n" + ("Game event reports:" + "\n" + Reports(g.updates))))))))))
  {
    hide StatLines;
    hide ReportLines;
    hide Reports;
    StatsWords();
    HeaderWords();
    ReportWords();
    ReportsFront(g.updates);
    Grouped(teamA + " vs " + teamB, "\n", "Game stats:", "General stats:", StatLines(g.general), teamA, " stats:",
            StatLines(g.a), teamB, StatLines(g.b), "Game event reports:", Reports(g.updates));
  }

  lemma SummaryCut(teamA: string, teamB: string, g: Stats)
    requires '\n' !in teamA && '\n' !in teamB && Lined(g.general) && Lined(g.a) && Lined(g.b)
    ensures LinesOf(Summary(teamA, teamB, g)) == SummaryLines(teamA, teamB, g)
  {
    hide Summary;
    hide LinesOf;
    hide StatLines;
    hide StatTexts;
    hide Reports;
    SummaryGrouped(teamA, teamB, g);
    StatsWords();
    HeaderWords();
    ReportWords();
    var reports := Reports(g.updates);
    var end := "" + "\n" + ("Game event reports:" + "\n" + reports);
    LineCut("Game event reports:", reports);
    LineCut("", "Game event reports:" + "\n" + reports);
    LinesOfStats(g.b, end);
    var fromB := StatLines(g.b) + end;
    LineCut(teamB + " stats:", fromB);
    LinesOfStats(g.a, teamB + " stats:" + "\n" + fromB);
    var fromA := StatLines(g.a) + (teamB + " stats:" + "\n" + fromB);
    LineCut(teamA + " stats:", fromA);
    LinesOfStats(g.general, teamA + " stats:" + "\n" + fromA);
    var general := StatLines(g.general) + (teamA + " stats:" + "\n" + fromA);
    LineCut("General stats:", general);
    LineCut("Game stats:", "General stats:" + "\n" + general);
    LineCut(teamA + " vs " + teamB, "Game stats:" + "\n" + ("General stats:" + "\n" + general));
    SameLines(teamA + " vs " + teamB, "Game stats:", "General stats:", StatTexts(g.general), teamA + " stats:",
              StatTexts(g.a), teamB + " stats:", StatTexts(g.b), "", "Game event reports:", LinesOf(reports));
  }

  lemma SameLines(t: string, w: string, v: string, g: seq<string>, a: string, sa: seq<string>, b: string,
                  sb: seq<string>, n: string, e: string, r: seq<string>)
    ensures [t] + ([w] + ([v] + (g + ([a] + (sa + ([b] + (sb + ([n] + ([e] + r)))))))))
            == [t, w] + [v] + (g + [a] + (sa + [b] + (sb + [n] + ([] + [e] + r))))
  {
  }

  lemma TitleIsNoHeader(teamA: string, teamB: string)
    ensures "General stats:" !in [teamA + " vs " + teamB, "Game stats:"]
  {
    assert (teamA + " vs " + teamB)[|teamA| + 1] == 'v';
    assert 'v' !in "General stats:";
    assert |"Game stats:"| == 11 && |"General stats:"| == 14;
  }

  /** No line of statistics is empty. */
  lemma NoBlankLine(e: seq<Entry>)
    ensures "" !in StatTexts(e)
  {
    forall i | 0 <= i < |e| ensures StatTexts(e)[i] != "" {
      assert StatLine(e[i])[|e[i].0|] == ':';
    }
  }

  /**
   A summary shows the two names in its title, and each map of statistics reads back to exactly what it was,
   each team's under its own header, if and only if no statistic looks like the header that ends its section;
   and then the reports follow in the order in which they arrived.
   */
  lemma SummaryReadsExactly(teamA: string, teamB: string, g: Stats)
    requires '\n' !in teamA && '\n' !in teamB && Lined(g.general) && Lined(g.a) && Lined(g.b)
    ensures var shown := ReadSummary(Summary(teamA, teamB, g), teamA, teamB);
            && shown.title == teamA + " vs " + teamB
            && (shown.general == g.general && shown.a == g.a && shown.b == g.b <==> HeadersApart(teamA, teamB, g))
            && (HeadersApart(teamA, teamB, g) ==> shown.reports == LinesOf(Reports(g.updates)))
  {
    hide Summary;
    hide LinesOf;
    hide StatTexts;
    hide Reports;
    hide UpToLine;
    hide PastLine;
    hide ReadEntries;
    SummaryCut(teamA, teamB, g);
    TitleIsNoHeader(teamA, teamB);
    NoBlankLine(g.b);
    EntriesComeBack(g.general);
    EntriesComeBack(g.a);
    EntriesComeBack(g.b);
    var reports := [] + ["Game event reports:"] + LinesOf(Reports(g.updates));
    var b := StatTexts(g.b) + [""] + reports;
    var a := StatTexts(g.a) + [teamB + " stats:"] + b;
    var general := StatTexts(g.general) + [teamA + " stats:"] + a;
    HeaderFound([], "Game event reports:", LinesOf(Reports(g.updates)));
    HeaderFound(StatTexts(g.b), "", reports);
    HeaderFound(StatTexts(g.a), teamB + " stats:", b);
    HeaderFound(StatTexts(g.general), teamA + " stats:", a);
    HeaderFound([teamA + " vs " + teamB, "Game stats:"], "General stats:", general);
    Sizes(g.general, general, teamA + " stats:");
    Sizes(g.a, a, teamB + " stats:");
    assert SummaryLines(teamA, teamB, g)[0] == teamA + " vs " + teamB;
  }

  lemma Sizes(e: seq<Entry>, lines: seq<string>, header: string)
    ensures |ReadEntries(UpToLine(lines, header))| == |UpToLine(lines, header)| && |StatTexts(e)| == |e|
  {
  }

  /** Names without a colon make headers that no statistic looks like. */
  lemma NoColonNoHeader(team: string, e: seq<Entry>)
    requires ':' !in team && Lined(e)
    ensures team + " stats:" !in StatTexts(e)
  {
    var header := team + " stats:";
    assert header[..|header| - 1] == team + " stats" && ':' !in " stats";
    forall i | 0 <= i < |e| ensures StatTexts(e)[i] != header {
      var x := e[i];
      assert StatLine(x)[|x.0|] == ':' && |StatLine(x)| >= |x.0| + 2;
      if StatLine(x) == header {
        assert header[..|header| - 1][|x.0|] == ':';
      }
    }
  }

  lemma WithoutColonsApart(teamA: string, teamB: string, g: Stats)
    requires ':' !in teamA && ':' !in teamB && Lined(g.general) && Lined(g.a)
    ensures HeadersApart(teamA, teamB, g)
  {
    hide StatTexts;
    NoColonNoHeader(teamA, g.general);
    NoColonNoHeader(teamB, g.a);
  }

  /** The names of a game are what is before and after its first underscore, or twice the whole without one. */
  lemma NamesOfGame(game: string)
    ensures '_' !in game ==> TeamA(game) == game && TeamB(game) == game
    ensures '_' in game ==> game == TeamA(game) + "_" + TeamB(game) && '_' !in TeamA(game)
  {
    hide FindFrom;
    FreeChar(game, '_');
    if Find(game, "_").Some? {
      var n := Find(game, "_").value;
      forall i | 0 <= i < n ensures game[i] != '_' {
        assert !Occurs(game, "_", i);
        assert game[i..i + 1] == [game[i]];
      }
      assert game[n..n + 1] == "_";
      assert game == game[..n] + game[n..n + 1] + game[n + 1..];
    }
  }

  lemma {:induction false} GamesKnown(s: S.Store, notes: seq<S.Note>, game: string)
    requires S.Replay(s, notes).Some?
    ensures game in S.Replay(s, notes).value <==> game in s || exists n :: n in notes && Trim(n.game) == game
    decreases notes
  {
    hide Trim;
    hide S.Updates;
    if notes == [] {
    } else {
      GamesKnown(S.Record(s, notes[0]).value, notes[1..], game);
      assert notes == [notes[0]] + notes[1..];
      assert notes[0] in notes;
    }
  }

  lemma {:induction false} LogIsEmpty(notes: seq<S.Note>, game: string, user: string)
    ensures S.Log(notes, game, user) == [] <==> forall n :: n in notes ==> !(Trim(n.game) == game && n.user == user)
  {
    hide Trim;
    if notes == [] {
    } else {
      LogIsEmpty(notes[1..], game, user);
      assert notes == [notes[0]] + notes[1..];
      assert notes[0] in notes;
    }
  }

  lemma {:induction false} FoldIsSome(g: Option<Stats>, log: seq<S.Note>)
    requires forall n :: n in log ==> !Free(n.updates, TEAM_B)
    ensures S.Fold(g, log) == None <==> g == None && log == []
    decreases log
  {
    hide Split;
    if log == [] {
    } else {
      assert log[0] in log && forall n :: n in log[1..] ==> n in log;
      var h := if g == None then NoStats else g.value;
      UpdateIsSome(h, log[0]);
      FoldIsSome(S.Updates(h, log[0]), log[1..]);
    }
  }

  lemma UpdateIsSome(g: Stats, n: S.Note)
    requires !Free(n.updates, TEAM_B)
    ensures S.Updates(g, n).Some?
  {
    hide ReadLines;
  }

  /**
   What is answered after any MESSAGEs: which of game and reporter none was about, or the summary of those
   that were.
   */
  lemma AnswersExactly(notes: seq<S.Note>, game: string, user: string)
    requires forall n :: n in notes ==> !Free(n.updates, TEAM_B)
    ensures S.Replay(map[], notes).Some?
    ensures var answer := Answer(S.Replay(map[], notes).value, game, user);
            && (answer == "gamename" <==> forall n :: n in notes ==> Trim(n.game) != Trim(game))
            && (answer == "username" <==>
                  && (exists n :: n in notes && Trim(n.game) == Trim(game))
                  && forall n :: n in notes && Trim(n.game) == Trim(game) ==> n.user != user)
  {
    hide Trim;
    hide S.Replay;
    hide S.Fold;
    hide S.Log;
    hide S.Lookup;
    hide Summary;
    S.StoreIsLogs(map[], notes, Trim(game), user);
    GamesKnown(map[], notes, Trim(game));
    LogIsEmpty(notes, Trim(game), user);
    NothingKnown(Trim(game), user);
    FoldIsSome(None, S.Log(notes, Trim(game), user));
    var store := S.Replay(map[], notes).value;
    if S.Lookup(store, Trim(game), user).Some? {
      SummaryIsNoAnswer(TeamA(Trim(game)), TeamB(Trim(game)), S.Lookup(store, Trim(game), user).value);
    }
    assert "gamename"[0] != "username"[0];
  }

  lemma NothingKnown(game: string, user: string)
    ensures S.Lookup(map[], game, user) == None
  {
  }
}
